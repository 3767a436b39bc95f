/**
 * The usage reporter of an agent (internal/agent/reporter/reporter.go): entries are buffered, taken as a
 * batch under the mutex, notified outside it, and put back when that fails.
 */
module Reporting {
  import opened Sequences

  // ---------------------------------------------------------------------------------------------
  // Sequential code
  // ---------------------------------------------------------------------------------------------

  /** What the client makes of a report; a failed notification may have arrived all the same. */
  datatype Delivery = NoClient | Accepted | Rejected

  class Reporter<T> {
    const bufferSize: nat
    var buffer: seq<T>
    ghost var sent: seq<T>
    ghost var dropped: seq<T>

    constructor (bufferSize: nat)
      ensures this.bufferSize == bufferSize && buffer == [] && sent == [] && dropped == []
    {
      this.bufferSize := bufferSize;
      buffer, sent, dropped := [], [], [];
    }

    /**
     * A flush with nothing else running.  A report that arrives, or has no client to go to, empties the buffer;
     * one that is rejected leaves everything as it was, but for the oldest entries above ten buffers' worth.
     */
    method Flush(delivery: Delivery)
      modifies this
      ensures State() == FlushAlone(bufferSize, old(State()), delivery)
      ensures delivery.Accepted? ==> buffer == [] && sent == old(sent + buffer) && dropped == old(dropped)
      ensures delivery.NoClient? ==> buffer == [] && sent == old(sent) && dropped == old(dropped + buffer)
      ensures delivery.Rejected? && |old(buffer)| <= bufferSize * 10 ==>
        buffer == old(buffer) && sent == old(sent) && dropped == old(dropped)
      ensures delivery.Rejected? && |old(buffer)| > bufferSize * 10 ==>
        |buffer| == bufferSize * 10 && sent == old(sent) && dropped + buffer == old(dropped + buffer)
    {
      if buffer == [] {
        return;
      }
      var logs := buffer;
      buffer := [];
      if delivery == NoClient {
        dropped := dropped + logs;
        return;
      }
      if delivery == Rejected {
        buffer := logs + buffer;
        if |buffer| > bufferSize * 10 {
          var excess := |buffer| - bufferSize * 10;
          dropped := dropped + buffer[..excess];
          buffer := buffer[excess..];
        }
      } else {
        sent := sent + logs;
      }
    }

    /** The subscription handler: append, and flush a full buffer. */
    method OnUsageCompleted(entry: T, delivery: Delivery)
      modifies this
      ensures var appended := Step(bufferSize, old(State()), Append(entry));
        State() == if |old(buffer)| + 1 >= bufferSize then FlushAlone(bufferSize, appended, delivery) else appended
      ensures |old(buffer)| + 1 < bufferSize ==>
        buffer == old(buffer) + [entry] && sent == old(sent) && dropped == old(dropped)
      ensures |old(buffer)| + 1 >= bufferSize && delivery.Accepted? ==>
        buffer == [] && sent == old(sent + buffer) + [entry] && dropped == old(dropped)
      ensures |old(buffer)| + 1 >= bufferSize && delivery.NoClient? ==>
        buffer == [] && sent == old(sent) && dropped == old(dropped + buffer) + [entry]
      ensures |old(buffer)| + 1 >= bufferSize && delivery.Rejected? ==>
        sent == old(sent) && dropped + buffer == old(dropped + buffer) + [entry]
        && |buffer| == if |old(buffer)| + 1 <= bufferSize * 10 then |old(buffer)| + 1 else bufferSize * 10
    {
      buffer := buffer + [entry];
      if |buffer| >= bufferSize {
        Flush(delivery);
      }
    }

    ghost function State(): Pipe<T>
      reads this
    {
      Pipe(buffer, [], sent, dropped)
    }
  }

  /** A flush as the concurrent machine does it, without anything in between. */
  function FlushAlone<T>(size: nat, s: Pipe<T>, delivery: Delivery): Pipe<T> {
    if s.buffer == [] then s
    else
      Step(size, Step(size, s, Take),
        match delivery
        case NoClient => Discard(0)
        case Accepted => Deliver(0)
        case Rejected => PutBack(0))
  }

  /** A flush that runs alone, by what becomes of the entries. */
  lemma {:induction false} FlushMeaning<T>(size: nat, s: Pipe<T>, delivery: Delivery)
    requires s.inFlight == []
    ensures var t := FlushAlone(size, s, delivery);
      && t.inFlight == []
      && (delivery.Accepted? ==> t.buffer == [] && t.sent == s.sent + s.buffer && t.dropped == s.dropped)
      && (delivery.NoClient? ==> t.buffer == [] && t.sent == s.sent && t.dropped == s.dropped + s.buffer)
      && (delivery.Rejected? && |s.buffer| <= size * 10 ==> t == s)
      && (delivery.Rejected? && |s.buffer| > size * 10 ==>
            |t.buffer| == size * 10 && t.sent == s.sent && t.dropped + t.buffer == s.dropped + s.buffer)
  {
    if s.buffer != [] {
      var taken := Step(size, s, Take);
      assert taken.inFlight == [s.buffer] && Without(taken.inFlight, 0) == [];
      var n := Excess(size, |s.buffer|);
      assert s.buffer + [] == s.buffer && s.buffer[..n] + s.buffer[n..] == s.buffer;
    }
  }

  // ---------------------------------------------------------------------------------------------
  // Concurrent flushes
  // ---------------------------------------------------------------------------------------------

  datatype Pipe<T> = Pipe(buffer: seq<T>, inFlight: seq<seq<T>>, sent: seq<T>, dropped: seq<T>)

  datatype Event<T> = Append(entry: T) | Take | Deliver(i: nat) | PutBack(i: nat) | Discard(i: nat)

  /** How many of the oldest entries overflow the buffer. */
  function Excess(size: nat, length: nat): (excess: nat)
    ensures excess <= length
  {
    if length > size * 10 then length - size * 10 else 0
  }

  function Step<T>(size: nat, s: Pipe<T>, e: Event<T>): Pipe<T> {
    match e
    case Append(entry) => s.(buffer := s.buffer + [entry])
    case Take => if |s.buffer| == 0 then s else s.(inFlight := s.inFlight + [s.buffer], buffer := [])
    case Deliver(i) =>
      if i >= |s.inFlight| then s
      else s.(inFlight := Without(s.inFlight, i), sent := s.sent + s.inFlight[i])
    case PutBack(i) =>
      if i >= |s.inFlight| then s
      else
        var back := s.inFlight[i] + s.buffer;
        s.(inFlight := Without(s.inFlight, i), buffer := back[Excess(size, |back|)..],
          dropped := s.dropped + back[..Excess(size, |back|)])
    case Discard(i) =>
      if i >= |s.inFlight| then s
      else s.(inFlight := Without(s.inFlight, i), dropped := s.dropped + s.inFlight[i])
  }

  function Run<T>(size: nat, events: seq<Event<T>>): Pipe<T> {
    if events == [] then Pipe([], [], [], [])
    else Step(size, Run(size, events[..|events| - 1]), events[|events| - 1])
  }

  function Submitted<T>(events: seq<Event<T>>): seq<T> {
    if events == [] then []
    else
      var last := events[|events| - 1];
      Submitted(events[..|events| - 1]) + if last.Append? then [last.entry] else []
  }

  ghost predicate Accounted<T>(s: Pipe<T>, submitted: seq<T>) {
    multiset(submitted) == multiset(s.buffer) + multiset(Flatten(s.inFlight)) + multiset(s.sent) + multiset(s.dropped)
  }

  lemma {:induction false} TakeAccounts<T>(s: Pipe<T>, submitted: seq<T>)
    requires Accounted(s, submitted)
    ensures Accounted(s.(inFlight := s.inFlight + [s.buffer], buffer := []), submitted)
  {
    FlattenAppend(s.inFlight, [s.buffer]);
    FlattenOne(s.buffer);
  }

  /** A batch leaves the flight; its entries go somewhere else. */
  lemma {:induction false} LandAccounts<T>(s: Pipe<T>, i: nat, t: Pipe<T>, submitted: seq<T>)
    requires Accounted(s, submitted) && i < |s.inFlight| && t.inFlight == Without(s.inFlight, i)
    requires multiset(t.buffer) + multiset(t.sent) + multiset(t.dropped)
      == multiset(s.buffer) + multiset(s.sent) + multiset(s.dropped) + multiset(s.inFlight[i])
    ensures Accounted(t, submitted)
  {
    hide Flatten, Without;
    FlattenWithout(s.inFlight, i);
    var rest := multiset(Flatten(t.inFlight));
    assert multiset(s.buffer) + multiset(Flatten(s.inFlight)) + multiset(s.sent) + multiset(s.dropped)
      == (multiset(s.buffer) + multiset(s.sent) + multiset(s.dropped) + multiset(s.inFlight[i])) + rest;
    assert multiset(t.buffer) + rest + multiset(t.sent) + multiset(t.dropped)
      == (multiset(t.buffer) + multiset(t.sent) + multiset(t.dropped)) + rest;
  }

  lemma {:induction false} Shuffle<T>(a: multiset<T>, b: multiset<T>, c: multiset<T>, d: multiset<T>)
    ensures a + b + (c + d) == b + c + (d + a) == a + b + c + d
  {
  }

  lemma {:induction false} PutBackAccounts<T>(size: nat, s: Pipe<T>, i: nat, submitted: seq<T>)
    requires Accounted(s, submitted) && i < |s.inFlight|
    ensures Accounted(Step(size, s, PutBack(i)), submitted)
  {
    hide Excess, Flatten, Without, Accounted;
    var t := Step(size, s, PutBack(i));
    var back := s.inFlight[i] + s.buffer;
    var lost, kept := back[..Excess(size, |back|)], back[Excess(size, |back|)..];
    assert back == lost + kept;
    assert multiset(lost + kept) == multiset(s.inFlight[i] + s.buffer);
    assert multiset(lost) + multiset(kept) == multiset(s.inFlight[i]) + multiset(s.buffer);
    assert t.buffer == kept;
    assert t.sent == s.sent;
    assert t.dropped == s.dropped + lost;
    assert multiset(t.dropped) == multiset(s.dropped) + multiset(lost);
    Shuffle(multiset(kept), multiset(s.sent), multiset(s.dropped), multiset(lost));
    Shuffle(multiset(s.buffer), multiset(s.sent), multiset(s.dropped), multiset(s.inFlight[i]));
    LandAccounts(s, i, t, submitted);
  }

  lemma {:induction false} StepAccounts<T>(size: nat, s: Pipe<T>, e: Event<T>, submitted: seq<T>)
    requires Accounted(s, submitted)
    ensures Accounted(Step(size, s, e), submitted + if e.Append? then [e.entry] else [])
  {
    hide Flatten, Without, Excess;
    assert !e.Append? ==> submitted + [] == submitted;
    match e
    case Append(entry) =>
    case Take => TakeAccounts(s, submitted);
    case Deliver(i) =>
      if i < |s.inFlight| { LandAccounts(s, i, Step(size, s, e), submitted); }
    case PutBack(i) =>
      if i < |s.inFlight| {
        PutBackAccounts(size, s, i, submitted);
      }
    case Discard(i) =>
      if i < |s.inFlight| { LandAccounts(s, i, Step(size, s, e), submitted); }
  }

  /** However flushes overlap, every entry is buffered, in flight, sent or dropped - and counted once. */
  lemma {:induction false} NothingVanishes<T>(size: nat, events: seq<Event<T>>)
    ensures Accounted(Run(size, events), Submitted(events))
    decreases |events|
  {
    if events != [] {
      var n := |events| - 1;
      NothingVanishes(size, events[..n]);
      StepAccounts(size, Run(size, events[..n]), events[n], Submitted(events[..n]));
    }
  }

  /** Putting a batch back never leaves more than ten buffers' worth, and drops only what exceeds that. */
  lemma {:induction false} PutBackBounded<T>(size: nat, s: Pipe<T>, i: nat)
    requires i < |s.inFlight|
    ensures var t := Step(size, s, PutBack(i));
      && |t.buffer| <= size * 10
      && (t.dropped != s.dropped ==> |t.buffer| == size * 10)
      && t.dropped + t.buffer == s.dropped + s.inFlight[i] + s.buffer
  {
    var back := s.inFlight[i] + s.buffer;
    assert back == back[..Excess(size, |back|)] + back[Excess(size, |back|)..];
  }

  function Outstanding<T>(s: Pipe<T>): nat {
    |Flatten(s.inFlight)| + |s.buffer|
  }

  /** Putting back drops nothing while no more than ten buffers' worth is outstanding. */
  lemma {:induction false} RoomyStep<T>(size: nat, s: Pipe<T>, e: Event<T>)
    requires Outstanding(s) <= size * 10 && !e.Discard?
    ensures Step(size, s, e).dropped == s.dropped
  {
    hide Flatten, Without;
    if e.PutBack? && e.i < |s.inFlight| {
      FlattenWithout(s.inFlight, e.i);
      var all := Flatten(s.inFlight);
      assert |multiset(all)| == |all| && |multiset(s.inFlight[e.i])| == |s.inFlight[e.i]|;
      assert |s.inFlight[e.i] + s.buffer| <= size * 10;
    }
  }

  /** Over a run in which that holds all the time nothing is dropped. */
  lemma {:induction false} NothingDropped<T>(size: nat, events: seq<Event<T>>)
    requires forall e | e in events :: !e.Discard?
    requires forall n | 0 <= n < |events| :: Outstanding(Run(size, events[..n])) <= size * 10
    ensures Run(size, events).dropped == []
    decreases |events|
  {
    if events != [] {
      hide Step, Outstanding;
      var m := |events| - 1;
      forall n | 0 <= n < m
        ensures Outstanding(Run(size, events[..m][..n])) <= size * 10
      {
        assert events[..m][..n] == events[..n];
      }
      assert forall e | e in events[..m] :: e in events;
      NothingDropped(size, events[..m]);
      assert events[m] in events;
      RoomyStep(size, Run(size, events[..m]), events[m]);
    }
  }

  // ---------------------------------------------------------------------------------------------
  // Order, with one flush at a time
  // ---------------------------------------------------------------------------------------------

  function Queue<T>(s: Pipe<T>): seq<T> {
    s.sent + Flatten(s.inFlight) + s.buffer
  }

  /** No flush starts while another batch is out. */
  ghost predicate OneAtATime<T>(size: nat, events: seq<Event<T>>) {
    forall n | 0 <= n < |events| :: events[n].Take? ==> Run(size, events[..n]).inFlight == []
  }

  lemma {:induction false} QueueOfOne<T>(s: Pipe<T>)
    requires |s.inFlight| <= 1
    ensures Queue(s) == s.sent + (if s.inFlight == [] then [] else s.inFlight[0]) + s.buffer
  {
    if s.inFlight != [] {
      assert s.inFlight == [s.inFlight[0]];
      FlattenOne(s.inFlight[0]);
    }
  }

  lemma {:induction false} PutBackKeepsOrder<T>(size: nat, s: Pipe<T>, submitted: seq<T>)
    requires |s.inFlight| == 1 && Subsequence(Queue(s), submitted)
    ensures Subsequence(Queue(Step(size, s, PutBack(0))), submitted)
  {
    hide Excess, Subsequence, Queue;
    var back := s.inFlight[0] + s.buffer;
    var excess := Excess(size, |back|);
    QueueOfOne(s);
    QueueOfOne(Step(size, s, PutBack(0)));
    assert s.sent + s.inFlight[0] + s.buffer == s.sent + back[..excess] + back[excess..];
    SubsequenceCut(s.sent, back[..excess], back[excess..], submitted);
    assert s.sent + [] + back[excess..] == s.sent + back[excess..];
  }

  lemma {:induction false} StepKeepsOrder<T>(size: nat, s: Pipe<T>, e: Event<T>, submitted: seq<T>)
    requires |s.inFlight| <= 1 && (e.Take? ==> s.inFlight == [])
    requires Subsequence(Queue(s), submitted)
    ensures |Step(size, s, e).inFlight| <= 1
    ensures Subsequence(Queue(Step(size, s, e)), submitted + if e.Append? then [e.entry] else [])
  {
    hide Subsequence, Queue, Excess;
    var t := Step(size, s, e);
    QueueOfOne(s);
    QueueOfOne(t);
    assert !e.Append? ==> submitted + [] == submitted;
    match e
    case Append(entry) =>
      SubsequenceMore(Queue(s), submitted, entry);
      assert Queue(t) == Queue(s) + [entry];
    case Take =>
      assert Queue(t) == Queue(s);
    case Deliver(i) =>
      assert Queue(t) == Queue(s);
    case PutBack(i) =>
      if i < |s.inFlight| {
        PutBackKeepsOrder(size, s, submitted);
      }
    case Discard(i) =>
      if i < |s.inFlight| {
        SubsequenceCut(s.sent, s.inFlight[0], s.buffer, submitted);
        assert Queue(t) == s.sent + s.buffer;
      }
  }

  lemma {:induction false} QueueInOrder<T>(size: nat, events: seq<Event<T>>)
    requires OneAtATime(size, events)
    ensures |Run(size, events).inFlight| <= 1
    ensures Subsequence(Queue(Run(size, events)), Submitted(events))
    decreases |events|
  {
    if events == [] {
      SubsequenceOfNone<T>();
      assert Queue(Run(size, events)) == [];
    } else {
      var n := |events| - 1;
      forall m | 0 <= m < n
        ensures events[..n][m].Take? ==> Run(size, events[..n][..m]).inFlight == []
      {
        assert events[..n][..m] == events[..m];
      }
      hide Step, Queue, Subsequence;
      QueueInOrder(size, events[..n]);
      StepKeepsOrder(size, Run(size, events[..n]), events[n], Submitted(events[..n]));
    }
  }

  /** With one flush at a time entries are sent in the order they were submitted in. */
  lemma {:induction false} SentInOrder<T>(size: nat, events: seq<Event<T>>)
    requires OneAtATime(size, events)
    ensures Subsequence(Run(size, events).sent, Submitted(events))
  {
    var s := Run(size, events);
    QueueInOrder(size, events);
    assert s.sent + (Flatten(s.inFlight) + s.buffer) + [] == Queue(s);
    SubsequenceCut(s.sent, Flatten(s.inFlight) + s.buffer, [], Submitted(events));
    assert s.sent + [] == s.sent;
  }

  lemma {:induction false} RunMore<T>(size: nat, events: seq<Event<T>>, e: Event<T>)
    ensures Run(size, events + [e]) == Step(size, Run(size, events), e)
    ensures Submitted(events + [e]) == Submitted(events) + if e.Append? then [e.entry] else []
  {
    hide Step;
    assert (events + [e])[..|events|] == events;
  }

  lemma {:induction false} AppendAndTake<T>(size: nat, s: Pipe<T>, entry: T)
    requires s.buffer == []
    ensures Step(size, Step(size, s, Append(entry)), Take) == s.(inFlight := s.inFlight + [[entry]])
  {
    assert s.buffer + [entry] == [entry];
  }

  lemma {:induction false} DeliverSwapped<T>(size: nat, s: Pipe<T>, a: seq<T>, b: seq<T>)
    requires s.inFlight == [a, b]
    ensures Step(size, Step(size, s, Deliver(1)), Deliver(0)).sent == s.sent + b + a
  {
    assert Without(s.inFlight, 1) == [a];
  }

  lemma {:induction false} RunTwoMore<T>(size: nat, events: seq<Event<T>>, e: Event<T>, f: Event<T>)
    ensures Run(size, events + [e, f]) == Step(size, Step(size, Run(size, events), e), f)
    ensures Submitted(events + [e, f])
      == Submitted(events) + (if e.Append? then [e.entry] else []) + if f.Append? then [f.entry] else []
  {
    hide Step;
    RunMore(size, events, e);
    RunMore(size, events + [e], f);
    assert events + [e] + [f] == events + [e, f];
  }

  /** The hypothesis is needed: of two overlapping flushes the later may be accepted first. */
  lemma {:induction false} OverlapReorders<T>(size: nat, first: T, second: T) returns (events: seq<Event<T>>)
    requires first != second
    ensures Submitted(events) == [first, second] && Run(size, events).sent == [second, first]
    ensures !Subsequence(Run(size, events).sent, Submitted(events))
  {
    var one, two := [Append(first), Take], [Append(second), Take];
    var start: Pipe<T> := Pipe([], [], [], []);
    assert Run<T>(size, []) == start && Submitted<T>([]) == [];
    hide Run, Submitted, Step, Subsequence;
    RunTwoMore(size, [], Append(first), Take);
    AppendAndTake(size, start, first);
    assert [] + one == one;
    RunTwoMore(size, one, Append(second), Take);
    AppendAndTake(size, start.(inFlight := [[first]]), second);
    RunTwoMore(size, one + two, Deliver(1), Deliver(0));
    DeliverSwapped(size, start.(inFlight := [[first], [second]]), [first], [second]);
    events := one + two + [Deliver(1), Deliver(0)];
    if Subsequence([second, first], [first, second]) {
      TwoInOrder(second, first, first, second);
    }
  }

  lemma {:induction false} TwoInOrder<T>(a: T, b: T, c: T, d: T)
    requires Subsequence([a, b], [c, d])
    ensures a == c && b == d
  {
    var f :| Embeds([a, b], [c, d], f);
    assert f[0] < f[1];
  }
}
