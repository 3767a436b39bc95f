/**
 * When overlapping flushes of the usage reporter keep the order of the entries
 * (internal/agent/reporter/reporter.go:76-107).  Entries may be equal, so the machine is run on their
 * numbers: the n-th entry that was appended is n.
 */
module ReportOrder {
  import opened Sequences
  import opened Reporting

  function Numbered<T>(events: seq<Event<T>>): seq<Event<nat>> {
    if events == [] then []
    else
      var n := |events| - 1;
      Numbered(events[..n]) + [Renamed(events[n], |Submitted(events[..n])|)]
  }

  function Renamed<T>(e: Event<T>, number: nat): Event<nat> {
    match e
    case Append(_) => Append(number)
    case Take => Take
    case Deliver(i) => Deliver(i)
    case PutBack(i) => PutBack(i)
    case Discard(i) => Discard(i)
  }

  function UpTo(n: nat): seq<nat> {
    seq(n, i => i)
  }

  lemma {:induction false} NumberedPrefix<T>(events: seq<Event<T>>, m: nat)
    requires m <= |events|
    ensures |Numbered(events)| == |events| && Numbered(events)[..m] == Numbered(events[..m])
    decreases |events|
  {
    if events != [] {
      var n := |events| - 1;
      if m == |events| {
        NumberedPrefix(events[..n], n);
        assert events[..m] == events;
      } else {
        NumberedPrefix(events[..n], m);
        assert events[..n][..m] == events[..m];
      }
    }
  }

  /** Numbers are given in order. */
  lemma {:induction false} NumbersSubmitted<T>(events: seq<Event<T>>)
    ensures Submitted(Numbered(events)) == UpTo(|Submitted(events)|)
    decreases |events|
  {
    if events != [] {
      var n := |events| - 1;
      NumbersSubmitted(events[..n]);
      NumberedPrefix(events, n);
    }
  }

  // ---------------------------------------------------------------------------------------------
  // Every number is in one place
  // ---------------------------------------------------------------------------------------------

  function Waiting<T>(s: Pipe<T>): seq<T> {
    Flatten(s.inFlight) + s.buffer
  }

  /** How often a number occurs, wherever it is. */
  ghost function Copies(s: Pipe<nat>, x: nat): nat {
    multiset(s.sent)[x] + multiset(Waiting(s))[x] + multiset(s.dropped)[x]
  }

  lemma {:induction false} UpToCounts(n: nat, x: nat)
    ensures multiset(UpTo(n))[x] == if x < n then 1 else 0
  {
    if n > 0 {
      UpToCounts(n - 1, x);
      assert UpTo(n) == UpTo(n - 1) + [n - 1];
    }
  }

  lemma {:induction false} OneCopy<T>(size: nat, events: seq<Event<T>>, x: nat)
    ensures Copies(Run(size, Numbered(events)), x) == if x < |Submitted(events)| then 1 else 0
  {
    hide Run, Numbered, Submitted;
    var s := Run(size, Numbered(events));
    NothingVanishes(size, Numbered(events));
    NumbersSubmitted(events);
    UpToCounts(|Submitted(events)|, x);
    assert multiset(Waiting(s)) == multiset(Flatten(s.inFlight)) + multiset(s.buffer);
  }

  /** What is sent or dropped stays so. */
  lemma {:induction false} StepGrows<T>(size: nat, s: Pipe<T>, e: Event<T>)
    ensures s.sent <= Step(size, s, e).sent && s.dropped <= Step(size, s, e).dropped
  {
  }

  lemma {:induction false} RunGrows<T>(size: nat, events: seq<Event<T>>, m: nat)
    requires m <= |events|
    ensures Run(size, events[..m]).sent <= Run(size, events).sent
    ensures Run(size, events[..m]).dropped <= Run(size, events).dropped
    decreases |events|
  {
    if m == |events| {
      assert events[..m] == events;
    } else {
      hide Step;
      var n := |events| - 1;
      RunGrows(size, events[..n], m);
      assert events[..n][..m] == events[..m];
      StepGrows(size, Run(size, events[..n]), events[n]);
    }
  }

  // ---------------------------------------------------------------------------------------------
  // Overtaking
  // ---------------------------------------------------------------------------------------------

  ghost predicate Increasing(s: seq<nat>) {
    forall i, j | 0 <= i < j < |s| :: s[i] < s[j]
  }

  /** The numbers of the entries in the order they were accepted in. */
  function SentNumbers<T>(size: nat, events: seq<Event<T>>): seq<nat> {
    Run(size, Numbered(events)).sent
  }

  function Before<T>(size: nat, events: seq<Event<T>>, n: nat): Pipe<nat>
    requires n <= |events|
  {
    Run(size, Numbered(events[..n]))
  }

  /** The n-th event has batch i accepted. */
  ghost predicate Delivers<T>(size: nat, events: seq<Event<T>>, n: nat, i: nat) {
    n < |events| && events[n] == Deliver(i) && i < |Before(size, events, n).inFlight|
  }

  /** A later event has a batch with the entry accepted. */
  ghost predicate AcceptedAfter<T>(size: nat, events: seq<Event<T>>, n: nat, y: nat) {
    exists m: nat, j: nat :: n < m && Delivers(size, events, m, j) && y in Before(size, events, m).inFlight[j]
  }

  /**
   * A batch is accepted only when it is in order itself and no older entry that a later event has accepted is
   * still waiting, buffered or in flight.
   */
  ghost predicate NeverOvertakes<T>(size: nat, events: seq<Event<T>>) {
    forall n: nat, i: nat | Delivers(size, events, n, i) ::
      var s := Before(size, events, n);
      && Increasing(s.inFlight[i])
      && forall x, y | x in s.inFlight[i] && y in Waiting(s.(inFlight := Without(s.inFlight, i))) && y < x ::
           !AcceptedAfter(size, events, n, y)
  }

  lemma {:induction false} BeforeNext<T>(size: nat, events: seq<Event<T>>, n: nat)
    requires n < |events|
    ensures Before(size, events, n + 1)
      == Step(size, Before(size, events, n), Renamed(events[n], |Submitted(events[..n])|))
  {
    hide Step, Submitted;
    assert events[..n + 1][..n] == events[..n];
    var e := Renamed(events[n], |Submitted(events[..n])|);
    assert Numbered(events[..n + 1]) == Numbered(events[..n]) + [e];
    RunMore(size, Numbered(events[..n]), e);
  }

  lemma {:induction false} BeforeGrows<T>(size: nat, events: seq<Event<T>>, n: nat, m: nat)
    requires n <= m <= |events|
    ensures Before(size, events, n).sent <= Before(size, events, m).sent
    ensures Before(size, events, n).dropped <= Before(size, events, m).dropped
    ensures Before(size, events, |events|).sent == SentNumbers(size, events)
  {
    hide Run;
    NumberedPrefix(events[..m], n);
    assert events[..m][..n] == events[..n] && events[..|events|] == events;
    RunGrows(size, Numbered(events[..m]), n);
  }

  lemma {:induction false} SentBy<T>(size: nat, s: Pipe<T>, e: Event<T>, x: T)
    requires x in Step(size, s, e).sent
    ensures x in s.sent || (e.Deliver? && e.i < |s.inFlight| && x in s.inFlight[e.i])
  {
  }

  /** Every accepted entry was accepted by some event. */
  lemma {:induction false} AcceptedBy<T>(size: nat, events: seq<Event<T>>, m: nat, x: nat) returns (n: nat, i: nat)
    requires m <= |events| && x in Before(size, events, m).sent
    ensures n < m && Delivers(size, events, n, i) && x in Before(size, events, n).inFlight[i]
    decreases m
  {
    assert m > 0 by {
      assert Numbered(events[..0]) == [];
    }
    hide Run, Numbered, Submitted, Step, Before;
    BeforeNext(size, events, m - 1);
    var number := |Submitted(events[..m - 1])|;
    SentBy(size, Before(size, events, m - 1), Renamed(events[m - 1], number), x);
    if x in Before(size, events, m - 1).sent {
      n, i := AcceptedBy(size, events, m - 1, x);
    } else {
      n, i := m - 1, events[m - 1].i;
    }
  }

  lemma {:induction false} SomeCopies(s: seq<nat>, x: nat)
    ensures x in s <==> multiset(s)[x] > 0
  {
    assert x in s <==> x in multiset(s);
  }

  /** Each number given so far is sent, waiting or dropped, and only one of these. */
  lemma {:induction false} OnePlace<T>(size: nat, events: seq<Event<T>>, n: nat, x: nat)
    requires n <= |events|
    ensures var s := Before(size, events, n);
      && (x < |Submitted(events[..n])| <==> x in s.sent || x in Waiting(s) || x in s.dropped)
      && !(x in s.sent && x in Waiting(s)) && !(x in s.sent && x in s.dropped) && !(x in Waiting(s) && x in s.dropped)
  {
    hide Run, Numbered, Submitted, Waiting;
    var s := Before(size, events, n);
    OneCopy(size, events[..n], x);
    SomeCopies(s.sent, x);
    SomeCopies(Waiting(s), x);
    SomeCopies(s.dropped, x);
  }

  /** A batch and what else is waiting have no number in common. */
  lemma {:induction false} BatchApart<T>(size: nat, events: seq<Event<T>>, n: nat, i: nat, x: nat)
    requires n <= |events| && i < |Before(size, events, n).inFlight|
    ensures var s := Before(size, events, n); var others := Waiting(s.(inFlight := Without(s.inFlight, i)));
      && (x in Waiting(s) <==> x in s.inFlight[i] || x in others)
      && !(x in s.inFlight[i] && x in others)
  {
    hide Run, Numbered, Submitted, Flatten, Without;
    var s := Before(size, events, n);
    var others := Waiting(s.(inFlight := Without(s.inFlight, i)));
    OneCopy(size, events[..n], x);
    FlattenWithout(s.inFlight, i);
    assert multiset(Waiting(s)) == multiset(Flatten(s.inFlight)) + multiset(s.buffer);
    assert multiset(others) == multiset(Flatten(Without(s.inFlight, i))) + multiset(s.buffer);
    SomeCopies(Waiting(s), x);
    SomeCopies(s.inFlight[i], x);
    SomeCopies(others, x);
  }

  /** An accepted batch is added to what was sent. */
  lemma {:induction false} Accepts<T>(size: nat, events: seq<Event<T>>, n: nat, i: nat)
    requires Delivers(size, events, n, i)
    ensures var s := Before(size, events, n);
      && Before(size, events, n + 1).sent == s.sent + s.inFlight[i]
      && s.sent + s.inFlight[i] <= SentNumbers(size, events)
  {
    BeforeNext(size, events, n);
    hide Run, Numbered, Submitted, Without;
    BeforeGrows(size, events, n + 1, |events|);
  }

  lemma {:induction false} InPrefix(a: seq<nat>, s: seq<nat>, x: nat)
    requires a <= s && x in a
    ensures x in s
  {
    var i :| 0 <= i < |a| && a[i] == x;
    assert s[i] == x;
  }

  /** What is outstanding while a batch is accepted is sent in the end exactly when a later event accepts it. */
  lemma {:induction false} AcceptedAfterIff<T>(size: nat, events: seq<Event<T>>, n: nat, i: nat, y: nat)
    requires Delivers(size, events, n, i)
    requires var s := Before(size, events, n); y in Waiting(s.(inFlight := Without(s.inFlight, i)))
    ensures y in SentNumbers(size, events) <==> AcceptedAfter(size, events, n, y)
  {
    hide Run, Numbered, Submitted, Waiting, Without, Before, SentNumbers;
    BatchApart(size, events, n, i, y);
    OnePlace(size, events, n, y);
    if y in SentNumbers(size, events) {
      BeforeGrows(size, events, n, |events|);
      var m, j := AcceptedBy(size, events, |events|, y);
      if m < n {
        Accepts(size, events, m, j);
        BeforeGrows(size, events, m + 1, n);
        InPrefix(Before(size, events, m + 1).sent, Before(size, events, n).sent, y);
      }
    } else if AcceptedAfter(size, events, n, y) {
      var m: nat, j: nat :| n < m && Delivers(size, events, m, j) && y in Before(size, events, m).inFlight[j];
      Accepts(size, events, m, j);
      InPrefix(Before(size, events, m).sent + Before(size, events, m).inFlight[j], SentNumbers(size, events), y);
    }
  }

  lemma {:induction false} OrderedNeverOvertakes<T>(size: nat, events: seq<Event<T>>)
    requires Increasing(SentNumbers(size, events))
    ensures NeverOvertakes(size, events)
  {
    hide Before, SentNumbers, Waiting, Without, AcceptedAfter;
    var sent := SentNumbers(size, events);
    forall n: nat, i: nat | Delivers(size, events, n, i)
      ensures Increasing(Before(size, events, n).inFlight[i])
      ensures var s := Before(size, events, n);
        forall x, y | x in s.inFlight[i] && y in Waiting(s.(inFlight := Without(s.inFlight, i))) && y < x ::
          !AcceptedAfter(size, events, n, y)
    {
      var s := Before(size, events, n);
      var b, k := s.inFlight[i], |s.sent|;
      Accepts(size, events, n, i);
      assert forall j | 0 <= j < |b| :: sent[k + j] == b[j] by {
        assert forall j | 0 <= j < |b| :: (s.sent + b)[k + j] == b[j];
      }
      forall x, y | x in b && y in Waiting(s.(inFlight := Without(s.inFlight, i))) && y < x
        ensures !AcceptedAfter(size, events, n, y)
      {
        LaterIsGreater(size, events, n, i, x, y);
        AcceptedAfterIff(size, events, n, i, y);
      }
    }
  }

  /** In an ordered run a number that waits while x is accepted is greater than x, if it is sent at all. */
  lemma {:induction false} LaterIsGreater<T>(size: nat, events: seq<Event<T>>, n: nat, i: nat, x: nat, y: nat)
    requires Increasing(SentNumbers(size, events)) && Delivers(size, events, n, i)
    requires var s := Before(size, events, n);
      x in s.inFlight[i] && y in Waiting(s.(inFlight := Without(s.inFlight, i)))
    ensures y in SentNumbers(size, events) ==> x < y
  {
    hide Run, Numbered, Submitted, Waiting, Without;
    var s, sent := Before(size, events, n), SentNumbers(size, events);
    var b, k := s.inFlight[i], |s.sent|;
    Accepts(size, events, n, i);
    if y in sent {
      BatchApart(size, events, n, i, y);
      OnePlace(size, events, n, y);
      var q :| 0 <= q < |sent| && sent[q] == y;
      var j :| 0 <= j < |b| && b[j] == x;
      assert (s.sent + b)[k + j] == x;
      InsidePrefix(s.sent + b, sent, q);
    }
  }

  lemma {:induction false} InsidePrefix(a: seq<nat>, s: seq<nat>, q: nat)
    requires a <= s && q < |s|
    ensures q < |a| ==> s[q] in a
  {
    assert q < |a| ==> a[q] == s[q];
  }

  lemma {:induction false} PrefixOrdered<T>(size: nat, events: seq<Event<T>>, m: nat)
    requires NeverOvertakes(size, events) && m <= |events|
    ensures Increasing(Before(size, events, m).sent)
    decreases m
  {
    if m == 0 {
      assert events[..0] == [];
    } else {
      PrefixOrdered(size, events, m - 1);
      BeforeNext(size, events, m - 1);
      hide Run, Numbered, Submitted, Without, NeverOvertakes, Excess;
      var s, t := Before(size, events, m - 1), Before(size, events, m);
      if t.sent != s.sent {
        var i := events[m - 1].i;
        assert Delivers(size, events, m - 1, i);
        forall x, y | x in s.sent && y in s.inFlight[i]
          ensures x < y
        {
          SentBefore(size, events, m - 1, i, x, y);
        }
        BatchOrdered(size, events, m - 1, i);
        JoinIncreasing(s.sent, s.inFlight[i]);
      }
    }
  }

  lemma {:induction false} JoinIncreasing(a: seq<nat>, b: seq<nat>)
    requires Increasing(a) && Increasing(b) && forall x, y | x in a && y in b :: x < y
    ensures Increasing(a + b)
  {
    var c := a + b;
    forall i, j | 0 <= i < j < |c|
      ensures c[i] < c[j]
    {
      if i < |a| <= j {
        assert c[i] == a[i] && c[j] == b[j - |a|] && a[i] in a && b[j - |a|] in b;
      }
    }
  }

  lemma {:induction false} BatchOrdered<T>(size: nat, events: seq<Event<T>>, n: nat, i: nat)
    requires NeverOvertakes(size, events) && Delivers(size, events, n, i)
    ensures Increasing(Before(size, events, n).inFlight[i])
  {
  }

  /** Without overtaking, what is sent already is older than what is accepted now. */
  lemma {:induction false} SentBefore<T>(size: nat, events: seq<Event<T>>, m: nat, i: nat, x: nat, y: nat)
    requires NeverOvertakes(size, events) && Delivers(size, events, m, i)
    requires x in Before(size, events, m).sent && y in Before(size, events, m).inFlight[i]
    ensures x < y
  {
    hide Run, Numbered, Submitted, Waiting, Without, Before, NeverOvertakes;
    Accepts(size, events, m, i);
    assert y in Before(size, events, m).sent + Before(size, events, m).inFlight[i];
    assert y in SentNumbers(size, events);
    BatchApart(size, events, m, i, y);
    OnePlace(size, events, m, y);
    OnePlace(size, events, m, x);
    if y < x {
      var n, j := AcceptedBy(size, events, m, x);
      BatchApart(size, events, n, j, x);
      OnePlace(size, events, n, x);
      BeforeGrows(size, events, n, m);
      OnePlace(size, events, n, y);
      StillWaiting(size, events, n, m, y);
      BatchApart(size, events, n, j, y);
      Accepts(size, events, n, j);
      BeforeGrows(size, events, n + 1, m);
      NotOvertaken(size, events, n, j, x, y);
      InPrefix(Before(size, events, n + 1).sent, Before(size, events, m).sent, y);
    }
  }

  lemma {:induction false} NotOvertaken<T>(size: nat, events: seq<Event<T>>, n: nat, i: nat, x: nat, y: nat)
    requires NeverOvertakes(size, events) && Delivers(size, events, n, i)
    requires x in Before(size, events, n).inFlight[i] && y < x && y in SentNumbers(size, events)
    ensures var s := Before(size, events, n); y !in Waiting(s.(inFlight := Without(s.inFlight, i)))
  {
    hide Waiting, Without, Before, SentNumbers, AcceptedAfter;
    var s := Before(size, events, n);
    if y in Waiting(s.(inFlight := Without(s.inFlight, i))) {
      AcceptedAfterIff(size, events, n, i, y);
    }
  }

  /** A number that waits later and was given already has been waiting all the time. */
  lemma {:induction false} StillWaiting<T>(size: nat, events: seq<Event<T>>, n: nat, m: nat, y: nat)
    requires n <= m <= |events| && y < |Submitted(events[..n])| && y in Waiting(Before(size, events, m))
    ensures y in Waiting(Before(size, events, n))
  {
    hide Run, Numbered, Submitted, Waiting, Before;
    OnePlace(size, events, n, y);
    OnePlace(size, events, m, y);
    BeforeGrows(size, events, n, m);
  }

  /** The entries are accepted in the order they were appended in exactly when no batch overtakes another. */
  lemma {:induction false} SentInOrderIff<T>(size: nat, events: seq<Event<T>>)
    ensures Increasing(SentNumbers(size, events)) <==> NeverOvertakes(size, events)
  {
    if NeverOvertakes(size, events) {
      PrefixOrdered(size, events, |events|);
      assert events[..|events|] == events;
    } else if Increasing(SentNumbers(size, events)) {
      OrderedNeverOvertakes(size, events);
    }
  }

  // ---------------------------------------------------------------------------------------------
  // Numbers and entries
  // ---------------------------------------------------------------------------------------------

  /** The entries with the given numbers. */
  ghost predicate Picks<T>(numbers: seq<nat>, entries: seq<T>, submitted: seq<T>) {
    |numbers| == |entries| && forall i | 0 <= i < |numbers| ::
      numbers[i] < |submitted| && entries[i] == submitted[numbers[i]]
  }

  ghost predicate PicksAll<T>(s: Pipe<nat>, t: Pipe<T>, submitted: seq<T>) {
    && Picks(s.buffer, t.buffer, submitted) && Picks(s.sent, t.sent, submitted)
      && Picks(s.dropped, t.dropped, submitted)
    && |s.inFlight| == |t.inFlight|
    && forall i | 0 <= i < |s.inFlight| :: Picks(s.inFlight[i], t.inFlight[i], submitted)
  }

  lemma {:induction false} PicksJoin<T>(a: seq<nat>, b: seq<T>, c: seq<nat>, d: seq<T>, submitted: seq<T>)
    requires Picks(a, b, submitted) && Picks(c, d, submitted)
    ensures Picks(a + c, b + d, submitted)
  {
  }

  lemma {:induction false} PicksCut<T>(a: seq<nat>, b: seq<T>, submitted: seq<T>, k: nat)
    requires Picks(a, b, submitted) && k <= |a|
    ensures Picks(a[..k], b[..k], submitted) && Picks(a[k..], b[k..], submitted)
  {
  }

  lemma {:induction false} PicksMore<T>(s: Pipe<nat>, t: Pipe<T>, submitted: seq<T>, entry: T)
    requires PicksAll(s, t, submitted)
    ensures PicksAll(s.(buffer := s.buffer + [|submitted|]), t.(buffer := t.buffer + [entry]), submitted + [entry])
  {
  }

  lemma {:induction false} PutBackPicks<T>(size: nat, s: Pipe<nat>, t: Pipe<T>, i: nat, submitted: seq<T>)
    requires PicksAll(s, t, submitted) && i < |s.inFlight|
    ensures PicksAll(Step(size, s, PutBack(i)), Step(size, t, PutBack(i)), submitted)
  {
    hide Picks, Excess;
    var back, entries := s.inFlight[i] + s.buffer, t.inFlight[i] + t.buffer;
    PicksJoin(s.inFlight[i], t.inFlight[i], s.buffer, t.buffer, submitted);
    assert |back| == |entries| by {
      PicksLength(back, entries, submitted);
    }
    var k := Excess(size, |back|);
    PicksCut(back, entries, submitted, k);
    PicksJoin(s.dropped, t.dropped, back[..k], entries[..k], submitted);
  }

  lemma {:induction false} PicksLength<T>(a: seq<nat>, b: seq<T>, submitted: seq<T>)
    requires Picks(a, b, submitted)
    ensures |a| == |b|
  {
  }

  lemma {:induction false} StepPicks<T>(size: nat, s: Pipe<nat>, t: Pipe<T>, submitted: seq<T>, e: Event<T>)
    requires PicksAll(s, t, submitted)
    ensures PicksAll(Step(size, s, Renamed(e, |submitted|)), Step(size, t, e),
      submitted + if e.Append? then [e.entry] else [])
  {
    assert s.buffer == [] <==> t.buffer == [];
    assert Picks([], [], submitted);
    hide Picks, Excess;
    assert !e.Append? ==> submitted + [] == submitted;
    match e
    case Append(entry) => PicksMore(s, t, submitted, entry);
    case Take =>
    case Deliver(i) =>
      if i < |s.inFlight| { PicksJoin(s.sent, t.sent, s.inFlight[i], t.inFlight[i], submitted); }
    case PutBack(i) =>
      if i < |s.inFlight| { PutBackPicks(size, s, t, i, submitted); }
    case Discard(i) =>
      if i < |s.inFlight| { PicksJoin(s.dropped, t.dropped, s.inFlight[i], t.inFlight[i], submitted); }
  }

  lemma {:induction false} RunPicks<T>(size: nat, events: seq<Event<T>>)
    ensures PicksAll(Run(size, Numbered(events)), Run(size, events), Submitted(events))
    decreases |events|
  {
    if events != [] {
      var n := |events| - 1;
      RunPicks(size, events[..n]);
      NumberedPrefix(events, n);
      hide Step, PicksAll;
      StepPicks(size, Run(size, Numbered(events[..n])), Run(size, events[..n]), Submitted(events[..n]), events[n]);
    }
  }

  /** So the accepted entries are in the order they were appended in unless a batch overtakes another. */
  lemma {:induction false} EntriesInOrder<T>(size: nat, events: seq<Event<T>>)
    requires NeverOvertakes(size, events)
    ensures Subsequence(Run(size, events).sent, Submitted(events))
  {
    hide Run, Numbered, Submitted, NeverOvertakes;
    SentInOrderIff(size, events);
    RunPicks(size, events);
    assert Embeds(Run(size, events).sent, Submitted(events), SentNumbers(size, events));
  }
}
