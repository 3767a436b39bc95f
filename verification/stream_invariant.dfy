/**
 * The checker for streamed tool calls (internal/agent/relay/codec/streaming_invariants.go): one pass
 * over interleaved events with a state per call id, against the shape of each call's own events.
 */
module StreamInvariant {
  import opened Options

  datatype EventKind = ToolCallStart | ToolCallArgumentsDelta | ToolCallEnd | OtherEvent(code: int)

  /** `callId` is None when the event carries no tool call. */
  datatype Event = Event(kind: EventKind, callId: Option<string>)

  datatype CallState = Started | Ended

  datatype Fault = DuplicateStart | DeltaWithoutStart | DeltaAfterEnd | EndWithoutStart | DuplicateEnd

  datatype Violation =
    | MissingCallId(index: nat)
    | OutOfPlace(index: nat, id: string, fault: Fault)
    | Unterminated(id: string)

  // ---------------------------------------------------------------------------------------------
  // What a well-formed stream is
  // ---------------------------------------------------------------------------------------------

  predicate OfCall(e: Event) {
    !e.kind.OtherEvent?
  }

  predicate Identified(e: Event) {
    OfCall(e) ==> e.callId.Some? && e.callId.value != ""
  }

  /** The kinds of the events that belong to one call, in order. */
  function Projection(events: seq<Event>, id: string): seq<EventKind> {
    if events == [] then []
    else
      var last := events[|events| - 1];
      Projection(events[..|events| - 1], id) + if OfCall(last) && last.callId == Some(id) then [last.kind] else []
  }

  /** A Start followed by nothing but argument deltas. */
  ghost predicate Running(kinds: seq<EventKind>) {
    kinds != [] && kinds[0].ToolCallStart? && forall k | 0 < k < |kinds| :: kinds[k].ToolCallArgumentsDelta?
  }

  /** Exactly one Start, any number of argument deltas, exactly one End. */
  ghost predicate Complete(kinds: seq<EventKind>) {
    |kinds| >= 2 && kinds[|kinds| - 1].ToolCallEnd? && Running(kinds[..|kinds| - 1])
  }

  ghost predicate Done(kinds: seq<EventKind>) {
    kinds == [] || Complete(kinds)
  }

  ghost predicate Possible(kinds: seq<EventKind>) {
    kinds == [] || Running(kinds) || Complete(kinds)
  }

  ghost predicate WellFormed(events: seq<Event>) {
    && (forall e | e in events :: Identified(e))
    && forall id :: Done(Projection(events, id))
  }

  /** Nothing has gone wrong yet: some well-formed stream may start like this. */
  ghost predicate Viable(events: seq<Event>) {
    && (forall e | e in events :: Identified(e))
    && forall id :: Possible(Projection(events, id))
  }

  /** When a call with these events so far cannot go on with an event of this kind. */
  ghost predicate Misplaced(fault: Fault, kind: EventKind, sofar: seq<EventKind>) {
    match fault
    case DuplicateStart => kind.ToolCallStart? && sofar != []
    case DeltaWithoutStart => kind.ToolCallArgumentsDelta? && sofar == []
    case DeltaAfterEnd => kind.ToolCallArgumentsDelta? && Complete(sofar)
    case EndWithoutStart => kind.ToolCallEnd? && sofar == []
    case DuplicateEnd => kind.ToolCallEnd? && Complete(sofar)
  }

  /** What an error means: the first event that no well-formed stream can have there, or a call left open. */
  ghost predicate Explains(v: Violation, events: seq<Event>) {
    match v
    case Unterminated(id) => Viable(events) && Running(Projection(events, id))
    case MissingCallId(i) => i < |events| && Viable(events[..i]) && !Identified(events[i])
    case OutOfPlace(i, id, fault) =>
      && i < |events| && Viable(events[..i])
      && Identified(events[i]) && events[i].callId == Some(id)
      && Misplaced(fault, events[i].kind, Projection(events[..i], id))
  }

  lemma {:induction false} RunningNotComplete(kinds: seq<EventKind>)
    requires Complete(kinds)
    ensures !Running(kinds)
  {
    assert kinds[|kinds| - 1].ToolCallEnd?;
  }

  lemma {:induction false} ProjectionStep(events: seq<Event>, i: nat, id: string)
    requires i < |events|
    ensures Projection(events[..i + 1], id)
      == Projection(events[..i], id)
        + if OfCall(events[i]) && events[i].callId == Some(id) then [events[i].kind] else []
  {
    assert events[..i + 1][..i] == events[..i];
  }

  /** An unidentified event, or one its call cannot continue with, is never put right by what follows. */
  lemma {:induction false} ViablePrefix(events: seq<Event>, i: nat)
    requires Viable(events) && i <= |events|
    ensures Viable(events[..i])
    decreases |events| - i
  {
    if i == |events| {
      assert events[..i] == events;
    } else {
      ViablePrefix(events, i + 1);
      forall id
        ensures Possible(Projection(events[..i], id))
      {
        ProjectionStep(events, i, id);
        var p, q := Projection(events[..i], id), Projection(events[..i + 1], id);
        if p != q && p != [] {
          assert q[..|q| - 1] == p;
        }
      }
      assert forall e | e in events[..i] :: e in events[..i + 1];
    }
  }

  lemma {:induction false} MisplacedNeverViable(fault: Fault, kind: EventKind, sofar: seq<EventKind>)
    requires Misplaced(fault, kind, sofar)
    ensures var p := sofar + [kind]; !Running(p) && !Complete(p)
  {
    var p := sofar + [kind];
    assert p[|p| - 1] == kind && p[..|p| - 1] == sofar;
    if Complete(sofar) {
      RunningNotComplete(sofar);
    }
  }

  /** The error reported is the earliest there is, and a stream with an error is not well formed. */
  lemma {:induction false} ExplainsIsEarliest(v: Violation, events: seq<Event>)
    requires Explains(v, events)
    ensures !WellFormed(events)
    ensures !v.Unterminated? ==> !Viable(events[..v.index + 1])
  {
    match v
    case Unterminated(id) =>
      if Complete(Projection(events, id)) {
        RunningNotComplete(Projection(events, id));
      }
    case MissingCallId(i) =>
      assert events[..i + 1][i] == events[i];
    case OutOfPlace(i, id, fault) =>
      ProjectionStep(events, i, id);
      MisplacedNeverViable(fault, events[i].kind, Projection(events[..i], id));
      if Viable(events) {
        ViablePrefix(events, i + 1);
      }
  }

  // ---------------------------------------------------------------------------------------------
  // The automaton
  // ---------------------------------------------------------------------------------------------

  /** The state map says of every call seen so far whether it is running or complete. */
  ghost predicate Tracks(state: map<string, CallState>, events: seq<Event>) {
    && Viable(events)
    && forall id :: Fits(state, id, Projection(events, id))
  }

  ghost predicate Fits(state: map<string, CallState>, id: string, kinds: seq<EventKind>) {
    if id !in state then kinds == [] else if state[id].Started? then Running(kinds) else Complete(kinds)
  }

  predicate Enabled(state: map<string, CallState>, e: Event)
    requires Identified(e)
  {
    match e.kind
    case ToolCallStart => e.callId.value !in state
    case ToolCallArgumentsDelta => e.callId.value in state && state[e.callId.value].Started?
    case ToolCallEnd => e.callId.value in state && state[e.callId.value].Started?
    case OtherEvent(_) => true
  }

  function Next(state: map<string, CallState>, e: Event): map<string, CallState>
    requires Identified(e) && Enabled(state, e)
  {
    match e.kind
    case ToolCallStart => state[e.callId.value := Started]
    case ToolCallArgumentsDelta => state
    case ToolCallEnd => state[e.callId.value := Ended]
    case OtherEvent(_) => state
  }

  lemma {:induction false} FitsStep(state: map<string, CallState>, e: Event, id: string, kinds: seq<EventKind>)
    requires Identified(e) && Enabled(state, e) && Fits(state, id, kinds)
    ensures Fits(Next(state, e), id, kinds + if OfCall(e) && e.callId == Some(id) then [e.kind] else [])
  {
    if OfCall(e) && e.callId == Some(id) {
      var p := kinds + [e.kind];
      assert p[|p| - 1] == e.kind && p[..|p| - 1] == kinds;
    } else {
      assert kinds + [] == kinds;
    }
  }

  lemma {:induction false} TracksStep(state: map<string, CallState>, events: seq<Event>, i: nat)
    requires i < |events| && Tracks(state, events[..i]) && Identified(events[i]) && Enabled(state, events[i])
    ensures Tracks(Next(state, events[i]), events[..i + 1])
  {
    var upto := events[..i + 1];
    forall id
      ensures Fits(Next(state, events[i]), id, Projection(upto, id)) && Possible(Projection(upto, id))
    {
      ProjectionStep(events, i, id);
      FitsStep(state, events[i], id, Projection(events[..i], id));
    }
  }

  method AssertStreamingToolCallInvariant(events: seq<Event>) returns (err: Option<Violation>)
    ensures err.None? <==> WellFormed(events)
    ensures err.Some? ==> Explains(err.value, events)
  {
    var state: map<string, CallState> := map[];
    for i := 0 to |events|
      invariant Tracks(state, events[..i])
    {
      var ev := events[i];
      ghost var before := state;
      if !ev.kind.OtherEvent? {
        if ev.callId.None? || ev.callId.value == "" {
          return Refute(MissingCallId(i), events);
        }
        var id := ev.callId.value;
        match ev.kind {
          case ToolCallStart =>
            if id in state {
              return Refute(OutOfPlace(i, id, DuplicateStart), events);
            }
            state := state[id := Started];
          case ToolCallArgumentsDelta =>
            if id !in state {
              return Refute(OutOfPlace(i, id, DeltaWithoutStart), events);
            }
            if state[id].Ended? {
              return Refute(OutOfPlace(i, id, DeltaAfterEnd), events);
            }
          case ToolCallEnd =>
            if id !in state {
              return Refute(OutOfPlace(i, id, EndWithoutStart), events);
            }
            if state[id].Ended? {
              return Refute(OutOfPlace(i, id, DuplicateEnd), events);
            }
            state := state[id := Ended];
          case OtherEvent(_) =>
        }
      }
      TracksStep(before, events, i);
    }
    assert events[..|events|] == events;
    var ids := state.Keys;
    while ids != {}
      invariant ids <= state.Keys
      invariant forall id | id in state && id !in ids :: state[id].Ended?
      decreases ids
    {
      var callId :| callId in ids;
      if state[callId].Started? {
        return Refute(Unterminated(callId), events);
      }
      ids := ids - {callId};
    }
    err := None;
  }

  /** Returns the error; the proof that it refutes well-formedness is the lemma above. */
  function Refute(v: Violation, events: seq<Event>): (err: Option<Violation>)
    requires Explains(v, events)
    ensures err == Some(v) && !WellFormed(events)
  {
    ExplainsIsEarliest(v, events);
    Some(v)
  }

  // ---------------------------------------------------------------------------------------------
  // Interleavings
  // ---------------------------------------------------------------------------------------------

  ghost predicate Interleaves(a: seq<Event>, b: seq<Event>, c: seq<Event>)
    decreases |c|
  {
    if c == [] then a == [] && b == []
    else
      var last, rest := c[|c| - 1], c[..|c| - 1];
      || (a != [] && a[|a| - 1] == last && Interleaves(a[..|a| - 1], b, rest))
      || (b != [] && b[|b| - 1] == last && Interleaves(a, b[..|b| - 1], rest))
  }

  ghost predicate Mentions(events: seq<Event>, id: string) {
    exists e | e in events :: OfCall(e) && e.callId == Some(id)
  }

  lemma {:induction false} ProjectionUnmentioned(events: seq<Event>, id: string)
    ensures Projection(events, id) == [] <==> !Mentions(events, id)
  {
    if events != [] {
      var n := |events| - 1;
      ProjectionUnmentioned(events[..n], id);
      assert events == events[..n] + [events[n]];
    }
  }

  lemma {:induction false} InterleavedProjection(a: seq<Event>, b: seq<Event>, c: seq<Event>, id: string)
    requires Interleaves(a, b, c)
    ensures !Mentions(b, id) ==> Projection(c, id) == Projection(a, id)
    ensures !Mentions(a, id) ==> Projection(c, id) == Projection(b, id)
    decreases |c|
  {
    if c != [] {
      var last, rest := c[|c| - 1], c[..|c| - 1];
      if a != [] && a[|a| - 1] == last && Interleaves(a[..|a| - 1], b, rest) {
        InterleavedProjection(a[..|a| - 1], b, rest, id);
        assert a == a[..|a| - 1] + [last];
      } else {
        InterleavedProjection(a, b[..|b| - 1], rest, id);
        assert b == b[..|b| - 1] + [last];
      }
    }
  }

  lemma {:induction false} InterleavedEvents(a: seq<Event>, b: seq<Event>, c: seq<Event>)
    requires Interleaves(a, b, c)
    ensures multiset(c) == multiset(a) + multiset(b)
    decreases |c|
  {
    if c != [] {
      var last, rest := c[|c| - 1], c[..|c| - 1];
      assert c == rest + [last];
      if a != [] && a[|a| - 1] == last && Interleaves(a[..|a| - 1], b, rest) {
        InterleavedEvents(a[..|a| - 1], b, rest);
        assert a == a[..|a| - 1] + [last];
      } else {
        InterleavedEvents(a, b[..|b| - 1], rest);
        assert b == b[..|b| - 1] + [last];
      }
    }
  }

  lemma {:induction false} InterleavedMembers(a: seq<Event>, b: seq<Event>, c: seq<Event>, e: Event)
    requires Interleaves(a, b, c)
    ensures e in c <==> e in a || e in b
  {
    InterleavedEvents(a, b, c);
    assert e in c <==> e in multiset(c);
    assert e in a <==> e in multiset(a);
    assert e in b <==> e in multiset(b);
  }

  /** Parallel calls: an interleaving of streams with no call in common is accepted exactly when both are. */
  lemma {:induction false} InterleavingWellFormed(a: seq<Event>, b: seq<Event>, c: seq<Event>)
    requires Interleaves(a, b, c)
    requires forall id :: !Mentions(a, id) || !Mentions(b, id)
    ensures WellFormed(c) <==> WellFormed(a) && WellFormed(b)
  {
    forall e
      ensures e in c <==> e in a || e in b
    {
      InterleavedMembers(a, b, c, e);
    }
    forall id
      ensures Done(Projection(c, id)) <==> Done(Projection(a, id)) && Done(Projection(b, id))
    {
      InterleavedProjection(a, b, c, id);
      ProjectionUnmentioned(a, id);
      ProjectionUnmentioned(b, id);
    }
  }
}
