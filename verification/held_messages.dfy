/**
 * The history normaliser as it runs (internal/agent/relay/codec/messages.go:28-131): over messages that hold
 * their content as arrays.  Copies of a message share its array, and so may the messages of a history.
 */
module HeldMessages {
  import opened Options
  import opened Messages
  import opened MessageLaws

  /** A message as it is held in memory. */
  datatype HeldMessage = HeldMessage(
    role: Role, content: array<ContentBlock>, toolCalls: seq<ToolCall>, toolCallId: string, rawJson: Option<string>)

  /** The contents of arrays. */
  type Store = map<array<ContentBlock>, seq<ContentBlock>>

  ghost function Arrays(ms: seq<HeldMessage>): set<array<ContentBlock>> {
    set m | m in ms :: m.content
  }

  ghost predicate Holds(ms: seq<HeldMessage>, store: Store) {
    forall m | m in ms :: m.content in store
  }

  function ViewIn(m: HeldMessage, store: Store): Message
    requires m.content in store
  {
    Message(m.role, store[m.content], m.toolCalls, m.toolCallId, m.rawJson)
  }

  /** The values of messages, by the contents of their arrays. */
  ghost function ViewsIn(ms: seq<HeldMessage>, store: Store): (values: seq<Message>)
    requires Holds(ms, store)
    ensures |values| == |ms|
  {
    seq(|ms|, i requires 0 <= i < |ms| => ViewIn(ms[i], store))
  }

  function View(m: HeldMessage): Message
    reads m.content
  {
    Message(m.role, m.content[..], m.toolCalls, m.toolCallId, m.rawJson)
  }

  ghost function StoreOf(ms: seq<HeldMessage>): (store: Store)
    reads Arrays(ms)
    ensures Holds(ms, store)
  {
    map a | a in Arrays(ms) :: a[..]
  }

  ghost function Views(ms: seq<HeldMessage>): seq<Message>
    reads Arrays(ms)
  {
    ViewsIn(ms, StoreOf(ms))
  }

  // ---------------------------------------------------------------------------------------------
  // What the rewrite does to messages and arrays
  // ---------------------------------------------------------------------------------------------

  /** A message of the output: with an array of the caller's, or with one that was made for it. */
  datatype Emitted = Kept(m: HeldMessage) | Made(value: Message)

  datatype Rewriting = Rewriting(out: seq<Emitted>, store: Store)

  predicate HeldAnchor(m: HeldMessage) {
    m.role.Assistant? && m.toolCalls != []
  }

  /** What the walk behind an anchor collects while the arrays are like that. */
  ghost function WalkIn(messages: seq<HeldMessage>, store: Store): (w: Walk)
    requires messages != [] && Holds(messages, store)
    ensures |w.rest| < |messages|
  {
    AbsorbShrinks(IdSet(messages[0].toolCalls), ViewsIn(messages[1..], store));
    Absorb(IdSet(messages[0].toolCalls), ViewsIn(messages[1..], store))
  }

  /** The merge writes to the anchor's array if that has a plain text block. */
  function Written(m: HeldMessage, w: Walk, store: Store): Store
    requires m.content in store
  {
    if w.texts != [] && HasPlainText(store[m.content]) then store[m.content := MergeTexts(store[m.content], w.texts)]
    else store
  }

  function EmittedAnchor(m: HeldMessage, w: Walk, store: Store): Emitted
    requires m.content in store
  {
    if w.texts == [] || HasPlainText(store[m.content]) then Kept(m.(toolCalls := m.toolCalls + w.calls))
    else Made(Merged(ViewIn(m, store), w))
  }

  function OthersOf(ms: seq<HeldMessage>): seq<HeldMessage> {
    if ms == [] then [] else (if ms[0].role.Assistant? then [] else [ms[0]]) + OthersOf(ms[1..])
  }

  function KeptAll(ms: seq<HeldMessage>): seq<Emitted> {
    seq(|ms|, i requires 0 <= i < |ms| => Kept(ms[i]))
  }

  /** The output and the contents of the caller's arrays afterwards, for every history. */
  ghost function Rewrite(messages: seq<HeldMessage>, store: Store): (r: Rewriting)
    requires Holds(messages, store)
    ensures r.store.Keys == store.Keys
    decreases |messages|
  {
    if messages == [] then Rewriting([], store)
    else if !HeldAnchor(messages[0]) then
      var r := Rewrite(messages[1..], store);
      r.(out := [Kept(messages[0])] + r.out)
    else
      var w := WalkIn(messages, store);
      var n := |messages| - |w.rest|;
      var r := Rewrite(messages[n..], Written(messages[0], w, store));
      r.(out := [EmittedAnchor(messages[0], w, store)] + KeptAll(OthersOf(messages[1..n])) + r.out)
  }

  // ---------------------------------------------------------------------------------------------
  // The code
  // ---------------------------------------------------------------------------------------------

  /** The arrays are like the store says. */
  ghost predicate StoreIs(messages: seq<HeldMessage>, store: Store)
    reads Arrays(messages)
  {
    Holds(messages, store) && forall m | m in messages :: m.content[..] == store[m.content]
  }

  ghost predicate Emits(out: seq<HeldMessage>, spec: seq<Emitted>)
    reads Arrays(out)
  {
    |out| == |spec| && forall k | 0 <= k < |out| ::
      match spec[k]
      case Kept(m) => out[k] == m
      case Made(value) => out[k] in out && View(out[k]) == value
  }

  /** What was made is not held by any message of the caller's. */
  ghost predicate MadeAside(out: seq<HeldMessage>, spec: seq<Emitted>, messages: seq<HeldMessage>) {
    |out| == |spec| && forall k | 0 <= k < |out| && spec[k].Made? :: out[k].content !in Arrays(messages)
  }

  lemma {:induction false} OthersMore(ms: seq<HeldMessage>, m: HeldMessage)
    ensures OthersOf(ms + [m]) == OthersOf(ms) + if m.role.Assistant? then [] else [m]
  {
    if ms == [] {
      assert ms + [m] == [m] && [m][1..] == [];
    } else {
      OthersMore(ms[1..], m);
      assert (ms + [m])[0] == ms[0] && (ms + [m])[1..] == ms[1..] + [m];
      var mine := if m.role.Assistant? then [] else [m];
      var first := if ms[0].role.Assistant? then [] else [ms[0]];
      assert first + (OthersOf(ms[1..]) + mine) == (first + OthersOf(ms[1..])) + mine;
    }
  }

  /** The inner loop: what the anchor at index i collects, and the index it stops at. */
  method WalkForward(messages: seq<HeldMessage>, i: nat, ghost store: Store)
    returns (calls: seq<ToolCall>, preambleTexts: seq<string>, toolResponses: seq<HeldMessage>, j: nat)
    requires i < |messages| && StoreIs(messages, store)
    ensures i < j <= |messages| && "" !in preambleTexts && toolResponses == OthersOf(messages[i + 1..j])
    ensures var values := ViewsIn(messages, store); var w := Absorb(IdSet(values[i].toolCalls), values[i + 1..]);
      w.calls == calls && w.texts == preambleTexts && w.rest == values[j..]
  {
    hide Absorb, IdSet, Walked, Behind, Blocked, Texts, OthersOf, ViewsIn, ViewIn;
    WalkAllowed(messages, store);
    ghost var values := ViewsIn(messages, store);
    ValueAt(messages, store, i);
    var pending := AddIds({}, messages[i].toolCalls);
    calls, preambleTexts, toolResponses, j := [], [], [], i + 1;
    ghost var replies: seq<Message> := [];
    assert messages[i + 1..j] == [] && {} + IdSet(values[i].toolCalls) == IdSet(values[i].toolCalls);
    NoOthers();
    WalkStarts(values, i);
    while j < |messages| && pending != {}
      invariant i < j <= |messages| && "" !in preambleTexts && StoreIs(messages, store)
      invariant toolResponses == OthersOf(messages[i + 1..j])
      invariant Walked(values, i, j, calls, preambleTexts, replies, pending)
    {
      var nx := messages[j];
      ValueAt(messages, store, j);
      OthersMore(messages[i + 1..j], nx);
      assert messages[i + 1..j + 1] == messages[i + 1..j] + [nx];
      if nx.role.Assistant? {
        WalkTakesAssistant(values, i, j, calls, preambleTexts, replies, pending);
        var texts := CollectTexts(nx.content[..]);
        TextsNonEmpty(nx.content[..]);
        pending := AddIds(pending, nx.toolCalls);
        calls, preambleTexts := calls + nx.toolCalls, preambleTexts + texts;
      } else if nx.role.Tool? && nx.toolCallId in pending {
        WalkTakesReply(values, i, j, calls, preambleTexts, replies, pending);
        replies := replies + [values[j]];
        toolResponses, pending := toolResponses + [nx], pending - {nx.toolCallId};
      } else {
        break;
      }
      j := j + 1;
    }
    if j < |messages| { ValueAt(messages, store, j); }
    StopBlocks(values, j, pending);
    WalkStops(values, i, j, calls, preambleTexts, replies, pending);
  }

  lemma {:induction false} WalkAllowed(messages: seq<HeldMessage>, store: Store)
    requires StoreIs(messages, store)
    ensures Holds(messages, store)
  {
  }

  lemma {:induction false} NoOthers()
    ensures OthersOf([]) == []
  {
  }

  lemma {:induction false} ValueAt(messages: seq<HeldMessage>, store: Store, j: nat)
    requires j < |messages| && StoreIs(messages, store)
    ensures var m, value := messages[j], ViewsIn(messages, store)[j];
      && m.role == value.role && m.content[..] == value.content
      && m.toolCalls == value.toolCalls && m.toolCallId == value.toolCallId
  {
    assert messages[j] in messages;
  }

  /** The content of the anchor: merged in the output, written to in the caller's array if it has a plain text. */
  method MergeIntoAnchor(m: HeldMessage, calls: seq<ToolCall>, preambleTexts: seq<string>, ghost w: Walk,
                         ghost store: Store)
    returns (merged: HeldMessage)
    requires "" !in preambleTexts && w.calls == calls && w.texts == preambleTexts
    requires m.content in store && m.content[..] == store[m.content]
    modifies m.content
    ensures m.content[..] == Written(m, w, store)[m.content]
    ensures match EmittedAnchor(m, w, store)
      case Kept(m') => merged == m'
      case Made(value) => View(merged) == value && fresh(merged.content)
  {
    merged := m.(toolCalls := m.toolCalls + calls);
    if preambleTexts != [] {
      JoinNonEmpty(preambleTexts);
      hide AppendJoined, Join;
      var content := MergePreambles(m.content, Join(preambleTexts));
      merged := merged.(content := content);
    }
  }

  /** The rewrite has come to index i with that output and those arrays. */
  ghost predicate Rewritten(messages: seq<HeldMessage>, before: Store, i: nat, made: seq<Emitted>, store: Store) {
    && i <= |messages| && Holds(messages, before) && Holds(messages, store)
    && var r := Rewrite(messages[i..], store); Rewrite(messages, before) == r.(out := made + r.out)
  }

  lemma {:induction false} PassRewritten(messages: seq<HeldMessage>, before: Store, i: nat, made: seq<Emitted>,
                                         store: Store)
    requires Rewritten(messages, before, i, made, store) && i < |messages| && !HeldAnchor(messages[i])
    ensures Rewritten(messages, before, i + 1, made + [Kept(messages[i])], store)
  {
    var rest := messages[i..];
    assert rest[0] == messages[i] && rest[1..] == messages[i + 1..];
    var out := Rewrite(messages[i + 1..], store).out;
    assert made + ([Kept(messages[i])] + out) == (made + [Kept(messages[i])]) + out;
  }

  lemma {:induction false} PassTurn(messages: seq<HeldMessage>, before: Store, i: nat, out: seq<HeldMessage>,
                                    made: seq<Emitted>, store: Store)
    requires Turned(messages, before, i, out, made, store) && i < |messages| && !HeldAnchor(messages[i])
    ensures Turned(messages, before, i + 1, out + [messages[i]], made + [Kept(messages[i])], store)
  {
    hide Rewritten, StoreIs;
    PassRewritten(messages, before, i, made, store);
    EmitsMore(out, made, [messages[i]], [Kept(messages[i])]);
    AsideMore(out, made, [messages[i]], [Kept(messages[i])], messages);
  }

  lemma {:induction false} SegmentTurn(messages: seq<HeldMessage>, before: Store, i: nat, made: seq<Emitted>,
                                       store: Store, j: nat, w: Walk)
    requires Rewritten(messages, before, i, made, store) && i < j <= |messages| && HeldAnchor(messages[i])
    requires var values := ViewsIn(messages, store);
      w == Absorb(IdSet(values[i].toolCalls), values[i + 1..]) && w.rest == values[j..]
    ensures Rewritten(messages, before, j,
      made + ([EmittedAnchor(messages[i], w, store)] + KeptAll(OthersOf(messages[i + 1..j]))),
      Written(messages[i], w, store))
  {
    hide Absorb, IdSet, OthersOf, KeptAll, EmittedAnchor, Written;
    var rest, values := messages[i..], ViewsIn(messages, store);
    assert rest[0] == messages[i] && rest[1..] == messages[i + 1..];
    assert ViewsIn(rest[1..], store) == values[i + 1..];
    assert WalkIn(rest, store) == w && |rest| - |w.rest| == j - i;
    assert rest[j - i..] == messages[j..] && rest[1..j - i] == messages[i + 1..j];
    WrittenHolds(messages, messages[i], w, store);
    var first := [EmittedAnchor(messages[i], w, store)] + KeptAll(OthersOf(messages[i + 1..j]));
    var out := Rewrite(messages[j..], Written(messages[i], w, store)).out;
    assert made + (first + out) == (made + first) + out;
  }

  lemma {:induction false} WrittenHolds(messages: seq<HeldMessage>, m: HeldMessage, w: Walk, store: Store)
    requires Holds(messages, store) && m.content in store
    ensures Holds(messages, Written(m, w, store))
  {
  }

  lemma {:induction false} EmitsMore(out: seq<HeldMessage>, made: seq<Emitted>, segment: seq<HeldMessage>,
                                     spec: seq<Emitted>)
    requires Emits(out, made) && Emits(segment, spec)
    ensures Emits(out + segment, made + spec)
  {
    var all := out + segment;
    forall k | 0 <= k < |all|
      ensures all[k] in all
      ensures all[k] == if k < |out| then out[k] else segment[k - |out|]
    {
    }
  }

  lemma {:induction false} AsideMore(out: seq<HeldMessage>, made: seq<Emitted>, segment: seq<HeldMessage>,
                                     spec: seq<Emitted>, messages: seq<HeldMessage>)
    requires MadeAside(out, made, messages) && MadeAside(segment, spec, messages)
    ensures MadeAside(out + segment, made + spec, messages)
  {
  }

  /** One turn of the outer loop at an anchor. */
  method RewriteSegment(messages: seq<HeldMessage>, i: nat, ghost store: Store)
    returns (segment: seq<HeldMessage>, j: nat, ghost w: Walk)
    requires i < |messages| && StoreIs(messages, store)
    modifies messages[i].content
    ensures i < j <= |messages|
    ensures var values := ViewsIn(messages, store);
      w == Absorb(IdSet(values[i].toolCalls), values[i + 1..]) && w.rest == values[j..]
    ensures var spec := [EmittedAnchor(messages[i], w, store)] + KeptAll(OthersOf(messages[i + 1..j]));
      && Emits(segment, spec) && |segment| == |spec|
      && forall k | 0 <= k < |segment| && spec[k].Made? :: fresh(segment[k].content)
    ensures StoreIs(messages, Written(messages[i], w, store))
  {
    hide Absorb, IdSet, ViewsIn, OthersOf, EmittedAnchor, Written;
    var m := messages[i];
    assert m in messages;
    var calls, preambleTexts, toolResponses;
    calls, preambleTexts, toolResponses, j := WalkForward(messages, i, store);
    w := Absorb(IdSet(ViewsIn(messages, store)[i].toolCalls), ViewsIn(messages, store)[i + 1..]);
    m := MergeIntoAnchor(m, calls, preambleTexts, w, store);
    segment := [m] + toolResponses;
    WrittenElsewhere(messages[i], w, store);
    WrittenHolds(messages, messages[i], w, store);
  }

  lemma {:induction false} WrittenElsewhere(m: HeldMessage, w: Walk, store: Store)
    requires m.content in store
    ensures Written(m, w, store).Keys == store.Keys
    ensures forall a | a in store && a != m.content :: Written(m, w, store)[a] == store[a]
  {
  }

  /** How far the rewrite has come: its output, and the arrays of the caller's messages. */
  ghost predicate Turned(messages: seq<HeldMessage>, before: Store, i: nat, out: seq<HeldMessage>, made: seq<Emitted>,
                         store: Store)
    reads Arrays(messages), Arrays(out)
  {
    && i <= |messages| && Rewritten(messages, before, i, made, store)
    && StoreIs(messages, store) && Emits(out, made) && MadeAside(out, made, messages)
  }

  /** One turn of the outer loop at an anchor, with what was there before. */
  method AnchorTurn(messages: seq<HeldMessage>, i: nat, out: seq<HeldMessage>, ghost before: Store,
                    ghost made: seq<Emitted>, ghost store: Store)
    returns (grown: seq<HeldMessage>, j: nat, ghost made': seq<Emitted>, ghost store': Store)
    requires Turned(messages, before, i, out, made, store) && i < |messages| && HeldAnchor(messages[i])
    modifies messages[i].content
    ensures i < j && Turned(messages, before, j, grown, made', store')
    ensures |out| <= |grown| == |made'| && grown[..|out|] == out && made'[..|out|] == made
    ensures forall k | |out| <= k < |grown| && made'[k].Made? :: fresh(grown[k].content)
  {
    hide Rewrite, Rewritten, Written, EmittedAnchor, ViewsIn, Absorb, IdSet, OthersOf, KeptAll, HeldAnchor;
    ghost var w;
    var segment;
    segment, j, w := RewriteSegment(messages, i, store);
    ghost var spec := [EmittedAnchor(messages[i], w, store)] + KeptAll(OthersOf(messages[i + 1..j]));
    SegmentTurn(messages, before, i, made, store, j, w);
    EmitsMore(out, made, segment, spec);
    AsideMore(out, made, segment, spec, messages);
    grown, made', store' := out + segment, made + spec, Written(messages[i], w, store);
    assert messages[i] in messages;
  }

  /**
   * For every history, also when its messages share arrays, the rewrite does what `Rewrite` says.  When none
   * that it changes is shared, it returns the normalised history and leaves the caller's as `CallerAfter` says.
   */
  method NormalizeAssistantToolCallSequence(messages: seq<HeldMessage>) returns (out: seq<HeldMessage>)
    modifies Arrays(messages)
    ensures var r := Rewrite(messages, old(StoreOf(messages)));
      && Emits(out, r.out) && StoreIs(messages, r.store)
      && forall k | 0 <= k < |out| && r.out[k].Made? :: fresh(out[k].content)
    ensures old(Unshared(messages, StoreOf(messages))) ==>
      Views(out) == Normalize(old(Views(messages))) && Views(messages) == CallerAfter(old(Views(messages)))
  {
    hide Rewrite, Rewritten, ViewsIn, StoreOf, Emits, MadeAside;
    ghost var before, store, made := StoreOf(messages), StoreOf(messages), [];
    out := [];
    var i := 0;
    RewriteStarts(messages, before);
    while i < |messages|
      invariant Turned(messages, before, i, out, made, store)
      invariant |out| == |made| && forall k | 0 <= k < |out| && made[k].Made? :: fresh(out[k].content)
    {
      var m := messages[i];
      assert m in messages;
      if !m.role.Assistant? || m.toolCalls == [] {
        PassTurn(messages, before, i, out, made, store);
        out, made := out + [m], made + [Kept(m)];
        i := i + 1;
      } else {
        ghost var was, had := out, made;
        out, i, made, store := AnchorTurn(messages, i, out, before, made, store);
        assert forall k | 0 <= k < |was| :: out[k] == was[k] && made[k] == had[k] by {
          assert out[..|was|] == was && made[..|was|] == had;
        }
      }
    }
    RewriteEnds(messages, before, made, store);
    if Unshared(messages, before) {
      Delivered(messages, before, out);
    }
  }

  lemma {:induction false} RewriteStarts(messages: seq<HeldMessage>, before: Store)
    requires Holds(messages, before)
    ensures before == StoreOf(messages) ==> before.Keys == Arrays(messages)
    ensures Rewritten(messages, before, 0, [], before)
    ensures before == StoreOf(messages) ==> Turned(messages, before, 0, [], [], before)
  {
    hide Rewrite;
    assert messages[0..] == messages;
    assert [] + Rewrite(messages, before).out == Rewrite(messages, before).out;
  }

  lemma {:induction false} RewriteEnds(messages: seq<HeldMessage>, before: Store, made: seq<Emitted>, store: Store)
    requires Rewritten(messages, before, |messages|, made, store)
    ensures Rewrite(messages, before) == Rewriting(made, store)
  {
    assert messages[|messages|..] == [] && made + [] == made;
  }

  // ---------------------------------------------------------------------------------------------
  // When messages do not share what is written to
  // ---------------------------------------------------------------------------------------------

  /** The arrays of the caller's that occur in the output are among those. */
  ghost predicate KeptIn(out: seq<Emitted>, arrays: set<array<ContentBlock>>) {
    forall e | e in out && e.Kept? :: e.m.content in arrays
  }

  function SeenOne(e: Emitted, store: Store): Message
    requires e.Kept? ==> e.m.content in store
  {
    if e.Kept? then ViewIn(e.m, store) else e.value
  }

  /** The values of an output. */
  ghost function SeenIn(out: seq<Emitted>, store: Store): (values: seq<Message>)
    requires KeptIn(out, store.Keys)
  {
    if out == [] then [] else assert out[0] in out; [SeenOne(out[0], store)] + SeenIn(out[1..], store)
  }

  lemma {:induction false} KeptJoin(a: seq<Emitted>, b: seq<Emitted>, arrays: set<array<ContentBlock>>)
    ensures KeptIn(a + b, arrays) <==> KeptIn(a, arrays) && KeptIn(b, arrays)
  {
    if KeptIn(a + b, arrays) {
      assert forall e | e in a || e in b :: e in a + b;
    }
  }

  lemma {:induction false} SeenFirst(out: seq<Emitted>, store: Store)
    requires out != [] && KeptIn(out, store.Keys)
    ensures KeptIn(out[1..], store.Keys) && (out[0].Kept? ==> out[0].m.content in store)
    ensures SeenIn(out, store) == [SeenOne(out[0], store)] + SeenIn(out[1..], store)
  {
    assert out[0] in out;
  }

  lemma {:induction false} SeenJoin(a: seq<Emitted>, b: seq<Emitted>, store: Store)
    requires KeptIn(a, store.Keys) && KeptIn(b, store.Keys)
    ensures KeptIn(a + b, store.Keys) && SeenIn(a + b, store) == SeenIn(a, store) + SeenIn(b, store)
  {
    KeptJoin(a, b, store.Keys);
    if a == [] {
      assert a + b == b;
    } else {
      hide KeptIn, SeenIn, SeenOne;
      SeenFirst(a, store);
      SeenFirst(a + b, store);
      SeenJoin(a[1..], b, store);
      assert (a + b)[0] == a[0] && (a + b)[1..] == a[1..] + b;
    }
  }

  lemma {:induction false} SeenKept(ms: seq<HeldMessage>, store: Store)
    requires Holds(ms, store)
    ensures KeptIn(KeptAll(ms), store.Keys) && SeenIn(KeptAll(ms), store) == ViewsIn(ms, store)
  {
    if ms != [] {
      SeenKept(ms[1..], store);
      assert KeptAll(ms) == [Kept(ms[0])] + KeptAll(ms[1..]) && ms[0] in ms;
      SeenSingle(Kept(ms[0]), store);
      SeenJoin([Kept(ms[0])], KeptAll(ms[1..]), store);
      assert ViewsIn(ms, store) == [ViewIn(ms[0], store)] + ViewsIn(ms[1..], store);
    }
  }

  lemma {:induction false} SeenSingle(e: Emitted, store: Store)
    requires e.Kept? ==> e.m.content in store
    ensures KeptIn([e], store.Keys) && SeenIn([e], store) == [SeenOne(e, store)]
  {
    assert [e][1..] == [];
  }

  /** No message shares its array with one that the rewrite changes. */
  ghost predicate Unshared(messages: seq<HeldMessage>, store: Store)
    requires Holds(messages, store)
  {
    var values := ViewsIn(messages, store);
    forall i, j | 0 <= i < |messages| && 0 <= j < |messages| && i != j && messages[i].content == messages[j].content ::
      CallerAfter(values)[i] == values[i]
  }

  lemma {:induction false} RewriteAt(messages: seq<HeldMessage>, store: Store)
    requires Holds(messages, store) && messages != []
    ensures !HeldAnchor(messages[0]) ==>
      var r := Rewrite(messages[1..], store); Rewrite(messages, store) == r.(out := [Kept(messages[0])] + r.out)
    ensures HeldAnchor(messages[0]) ==>
      var w := WalkIn(messages, store); var n := |messages| - |w.rest|;
      var written := Written(messages[0], w, store);
      && Holds(messages, written)
      && var r := Rewrite(messages[n..], written);
         Rewrite(messages, store)
         == r.(out := [EmittedAnchor(messages[0], w, store)] + KeptAll(OthersOf(messages[1..n])) + r.out)
  {
    hide WalkIn, KeptAll, OthersOf, EmittedAnchor;
  }

  /** The rewrite writes to no other arrays than those of its messages. */
  lemma {:induction false} RewriteElsewhere(messages: seq<HeldMessage>, store: Store, a: array<ContentBlock>)
    requires Holds(messages, store) && a in store && a !in Arrays(messages)
    ensures Rewrite(messages, store).store[a] == store[a]
    decreases |messages|
  {
    if messages == [] {
    } else if !HeldAnchor(messages[0]) {
      RewriteElsewhere(messages[1..], store, a);
    } else {
      var w := WalkIn(messages, store);
      var n := |messages| - |w.rest|;
      assert messages[0] in messages;
      assert forall m | m in messages[n..] :: m in messages;
      hide WalkIn;
      RewriteElsewhere(messages[n..], Written(messages[0], w, store), a);
    }
  }

  /** The values of replies are those the walk collects. */
  lemma {:induction false} OthersIn(ms: seq<HeldMessage>, store: Store)
    requires Holds(ms, store) && Holds(OthersOf(ms), store)
    ensures ViewsIn(OthersOf(ms), store) == NonAssistants(ViewsIn(ms, store))
  {
    if ms != [] {
      OthersIn(ms[1..], store);
      assert ViewsIn(ms, store)[1..] == ViewsIn(ms[1..], store);
    }
  }

  lemma {:induction false} OthersAmong(ms: seq<HeldMessage>)
    ensures forall m | m in OthersOf(ms) :: m in ms
  {
    if ms != [] {
      OthersAmong(ms[1..]);
    }
  }

  /** What the walk takes and what it leaves, by index. */
  lemma {:induction false} WalkParts(messages: seq<HeldMessage>, store: Store)
    requires messages != [] && Holds(messages, store) && HeldAnchor(messages[0])
    ensures var w, values := WalkIn(messages, store), ViewsIn(messages, store); var n := |values| - |w.rest|;
      && 0 < n && w.rest == values[n..] && w.replies == NonAssistants(values[1..n]) && "" !in w.texts
      && IsAnchor(values[0]) && w == Absorb(IdSet(values[0].toolCalls), values[1..])
  {
    hide Absorb, IdSet, NonAssistants;
    var w, values := WalkIn(messages, store), ViewsIn(messages, store);
    var n := |values| - |w.rest|;
    assert ViewsIn(messages[1..], store) == values[1..];
    AbsorbRest(IdSet(values[0].toolCalls), values[1..]);
    var taken := AbsorbTakes(IdSet(values[0].toolCalls), values[1..]);
    assert values[1..][..n - 1] == taken && values[1..n] == values[1..][..n - 1];
    assert values[1..][n - 1..] == values[n..];
  }

  /** The caller's history from behind the first segment or message on. */
  lemma {:induction false} AfterSegment(values: seq<Message>, w: Walk, n: nat)
    requires values != [] && IsAnchor(values[0]) && w == Absorb(IdSet(values[0].toolCalls), values[1..])
    requires 0 < n <= |values| && n == |values| - |w.rest| && w.rest == values[n..]
    ensures CallerAfter(values) == [Touched(values[0], w)] + values[1..n] + CallerAfter(values[n..])
    ensures Normalize(values) == [Merged(values[0], w)] + w.replies + Normalize(values[n..])
  {
    hide Absorb, IdSet, Touched, Merged;
  }

  lemma {:induction false} AfterMessage(values: seq<Message>)
    requires values != [] && !IsAnchor(values[0])
    ensures CallerAfter(values) == [values[0]] + CallerAfter(values[1..])
    ensures Normalize(values) == [values[0]] + Normalize(values[1..])
  {
  }

  /** From index n on the messages are as they were, and so is what the rewrite has still to do. */
  ghost predicate Later(messages: seq<HeldMessage>, store: Store, n: nat, now: Store)
    requires Holds(messages, store)
  {
    && n <= |messages| && Holds(messages, now)
    && ViewsIn(messages[n..], now) == ViewsIn(messages, store)[n..]
    && CallerAfter(ViewsIn(messages, store))[n..] == CallerAfter(ViewsIn(messages, store)[n..])
  }

  lemma {:induction false} LaterUnshared(messages: seq<HeldMessage>, store: Store, n: nat, now: Store)
    requires Holds(messages, store) && Unshared(messages, store) && Later(messages, store, n, now)
    ensures Unshared(messages[n..], now)
  {
    hide ViewsIn, CallerAfter;
    var rest, values := messages[n..], ViewsIn(messages, store);
    forall i, j | 0 <= i < |rest| && 0 <= j < |rest| && i != j && rest[i].content == rest[j].content
      ensures CallerAfter(ViewsIn(rest, now))[i] == ViewsIn(rest, now)[i]
    {
      assert messages[n + i].content == messages[n + j].content;
      assert CallerAfter(values)[n..][i] == CallerAfter(values)[n + i] && values[n..][i] == values[n + i];
    }
  }

  /** What comes before index n is not written to any more. */
  lemma {:induction false} Stays(messages: seq<HeldMessage>, store: Store, n: nat, now: Store, k: nat)
    requires Holds(messages, store) && Unshared(messages, store) && Later(messages, store, n, now) && k < n
    requires ViewsIn(messages[n..], Rewrite(messages[n..], now).store) == CallerAfter(ViewsIn(messages[n..], now))
    ensures Rewrite(messages[n..], now).store[messages[k].content] == now[messages[k].content]
  {
    hide CallerAfter, Rewrite;
    var rest, values, a := messages[n..], ViewsIn(messages, store), messages[k].content;
    var after := Rewrite(rest, now).store;
    assert messages[k] in messages;
    if a in Arrays(rest) {
      var m :| m in rest && m.content == a;
      var j :| 0 <= j < |rest| && rest[j] == m;
      assert messages[n + j].content == messages[k].content && n + j != k;
      assert CallerAfter(values)[n + j] == values[n + j];
      assert ViewsIn(rest, after)[j] == CallerAfter(values)[n..][j];
      assert ViewsIn(rest, now)[j] == values[n..][j];
      assert ViewIn(m, after) == ViewIn(m, now);
    } else {
      RewriteElsewhere(rest, now, a);
    }
  }

  ghost predicate Agrees(messages: seq<HeldMessage>, store: Store)
    requires Holds(messages, store)
  {
    var r, values := Rewrite(messages, store), ViewsIn(messages, store);
    && KeptIn(r.out, store.Keys) && SeenIn(r.out, r.store) == Normalize(values)
    && ViewsIn(messages, r.store) == CallerAfter(values)
  }

  lemma {:induction false} PassAgrees(messages: seq<HeldMessage>, store: Store)
    requires Holds(messages, store) && Unshared(messages, store) && messages != [] && !HeldAnchor(messages[0])
    requires Holds(messages[1..], store) && Agrees(messages[1..], store)
    ensures Agrees(messages, store)
  {
    hide Rewrite, CallerAfter, Normalize, KeptIn, SeenIn;
    var values, rest := ViewsIn(messages, store), messages[1..];
    RewriteAt(messages, store);
    AfterMessage(values);
    assert ViewsIn(rest, store) == values[1..];
    assert messages[0] in messages;
    var r := Rewrite(rest, store);
    Stays(messages, store, 1, store, 0);
    SeenSingle(Kept(messages[0]), r.store);
    SeenJoin([Kept(messages[0])], r.out, r.store);
    assert ViewsIn(messages, r.store) == [ViewIn(messages[0], r.store)] + ViewsIn(rest, r.store);
  }

  /** What the merge writes to is not held by a later message. */
  lemma {:induction false} WrittenLater(messages: seq<HeldMessage>, store: Store, w: Walk, n: nat)
    requires Holds(messages, store) && Unshared(messages, store) && messages != [] && HeldAnchor(messages[0])
    requires w == WalkIn(messages, store) && n == |messages| - |w.rest|
    ensures 0 < n && Later(messages, store, n, Written(messages[0], w, store))
    ensures forall k | 0 < k < |messages| ::
      Written(messages[0], w, store)[messages[k].content] == store[messages[k].content]
  {
    hide CallerAfter, Normalize, Merged, MergeTexts, HasPlainText, WalkIn, NonAssistants, IdSet, Absorb;
    var values, written := ViewsIn(messages, store), Written(messages[0], w, store);
    WalkParts(messages, store);
    AfterSegment(values, w, n);
    TouchedGrows(values[0], w);
    assert messages[0] in messages;
    WrittenElsewhere(messages[0], w, store);
    forall k | 0 < k < |messages|
      ensures written[messages[k].content] == store[messages[k].content]
    {
      if messages[k].content == messages[0].content {
        assert CallerAfter(values)[0] == values[0];
      }
    }
    assert ViewsIn(messages[n..], written) == values[n..];
  }

  /** The caller's history behind a segment's rewrite. */
  lemma {:induction false} SegmentLeft(messages: seq<HeldMessage>, store: Store, w: Walk, n: nat, written: Store)
    requires Holds(messages, store) && Unshared(messages, store) && messages != [] && HeldAnchor(messages[0])
    requires w == WalkIn(messages, store) && n == |messages| - |w.rest| && written == Written(messages[0], w, store)
    requires Holds(messages[n..], written) && Agrees(messages[n..], written)
    ensures var values, after := ViewsIn(messages, store), Rewrite(messages[n..], written).store;
      && Holds(messages, after) && after.Keys == store.Keys
      && ViewsIn(messages[1..n], after) == values[1..n]
      && after[messages[0].content] == written[messages[0].content]
      && ViewsIn(messages, after)
        == [ViewIn(messages[0], after)] + values[1..n] + CallerAfter(ViewsIn(messages[n..], written))
  {
    hide Rewrite, CallerAfter, Normalize, KeptIn, SeenIn, WalkIn, NonAssistants, IdSet, Absorb, Written, Unshared;
    var values, rest, taken := ViewsIn(messages, store), messages[n..], messages[1..n];
    WrittenLater(messages, store, w, n);
    WrittenElsewhere(messages[0], w, store);
    var after := Rewrite(rest, written).store;
    forall k | 0 <= k < n
      ensures after[messages[k].content] == written[messages[k].content]
    {
      Stays(messages, store, n, written, k);
    }
    assert ViewsIn(taken, after) == values[1..n];
    assert ViewsIn(rest, after) == CallerAfter(ViewsIn(rest, written));
    assert ViewsIn(messages, after) == [ViewIn(messages[0], after)] + ViewsIn(taken, after) + ViewsIn(rest, after);
  }

  lemma {:induction false} SegmentAgrees(messages: seq<HeldMessage>, store: Store, w: Walk, n: nat, written: Store)
    requires Holds(messages, store) && Unshared(messages, store) && messages != [] && HeldAnchor(messages[0])
    requires w == WalkIn(messages, store) && n == |messages| - |w.rest| && written == Written(messages[0], w, store)
    requires Holds(messages[n..], written) && Agrees(messages[n..], written)
    ensures Agrees(messages, store)
  {
    hide Rewrite, CallerAfter, Normalize, KeptIn, SeenIn, WalkIn, NonAssistants, IdSet, Absorb, Written, Unshared,
      Touched, Merged, EmittedAnchor;
    var values, rest := ViewsIn(messages, store), messages[n..];
    RewriteAt(messages, store);
    WalkParts(messages, store);
    AfterSegment(values, w, n);
    WrittenLater(messages, store, w, n);
    SegmentLeft(messages, store, w, n, written);
    var r := Rewrite(rest, written);
    AnchorSeen(messages[0], w, store, r.store);
    hide ViewsIn, ViewIn;
    SegmentSeen(EmittedAnchor(messages[0], w, store), messages[1..n], r.out, r.store);
  }

  lemma {:induction false} SegmentSeen(anchor: Emitted, taken: seq<HeldMessage>, out: seq<Emitted>, store: Store)
    requires KeptIn([anchor], store.Keys) && KeptIn(out, store.Keys) && Holds(taken, store)
    ensures var all := [anchor] + KeptAll(OthersOf(taken)) + out;
      && KeptIn(all, store.Keys)
      && SeenIn(all, store) == SeenIn([anchor], store) + NonAssistants(ViewsIn(taken, store)) + SeenIn(out, store)
  {
    hide KeptIn, SeenIn, ViewsIn, NonAssistants, KeptAll;
    OthersAmong(taken);
    OthersIn(taken, store);
    SeenKept(OthersOf(taken), store);
    SeenJoin([anchor], KeptAll(OthersOf(taken)), store);
    SeenJoin([anchor] + KeptAll(OthersOf(taken)), out, store);
  }

  /** The anchor in the output, and in the caller's history. */
  lemma {:induction false} AnchorSeen(m: HeldMessage, w: Walk, store: Store, after: Store)
    requires m.content in store && m.content in after && after[m.content] == Written(m, w, store)[m.content]
    ensures KeptIn([EmittedAnchor(m, w, store)], after.Keys)
    ensures SeenIn([EmittedAnchor(m, w, store)], after) == [Merged(ViewIn(m, store), w)]
    ensures ViewIn(m, after) == Touched(ViewIn(m, store), w)
  {
    hide KeptIn, SeenIn;
    SeenSingle(EmittedAnchor(m, w, store), after);
  }

  /**
   * When no message shares its array with one that the rewrite changes, the output is the normalised history
   * and the caller's history is left as `CallerAfter` says.
   */
  lemma {:induction false} UnsharedAgrees(messages: seq<HeldMessage>, store: Store)
    requires Holds(messages, store) && Unshared(messages, store)
    ensures Agrees(messages, store)
    decreases |messages|
  {
    if messages == [] {
    } else if !HeldAnchor(messages[0]) {
      hide Agrees, Rewrite, Normalize, CallerAfter;
      PassLater(messages, store);
      LaterUnshared(messages, store, 1, store);
      UnsharedAgrees(messages[1..], store);
      PassAgrees(messages, store);
    } else {
      hide Agrees, Rewrite, Normalize, CallerAfter, WalkIn, Written;
      var w := WalkIn(messages, store);
      var n := |messages| - |w.rest|;
      WrittenLater(messages, store, w, n);
      LaterUnshared(messages, store, n, Written(messages[0], w, store));
      UnsharedAgrees(messages[n..], Written(messages[0], w, store));
      SegmentAgrees(messages, store, w, n, Written(messages[0], w, store));
    }
  }

  lemma {:induction false} PassLater(messages: seq<HeldMessage>, store: Store)
    requires Holds(messages, store) && messages != [] && !HeldAnchor(messages[0])
    ensures Later(messages, store, 1, store)
  {
    hide CallerAfter;
    AfterMessage(ViewsIn(messages, store));
    assert ViewsIn(messages[1..], store) == ViewsIn(messages, store)[1..];
  }

  lemma {:induction false} ViewsOf(ms: seq<HeldMessage>, store: Store)
    requires StoreIs(ms, store)
    ensures Views(ms) == ViewsIn(ms, store)
  {
    forall i | 0 <= i < |ms|
      ensures Views(ms)[i] == ViewsIn(ms, store)[i]
    {
      assert ms[i] in ms;
    }
  }

  lemma {:induction false} ViewsFirst(ms: seq<HeldMessage>)
    requires ms != []
    ensures Views(ms) == [View(ms[0])] + Views(ms[1..])
  {
    assert ms[0] in ms;
    forall i | 0 < i < |ms|
      ensures Views(ms)[i] == Views(ms[1..])[i - 1]
    {
      assert ms[i] == ms[1..][i - 1] && ms[i] in ms && ms[i] in ms[1..];
    }
  }

  /** The values in memory of what was emitted. */
  lemma {:induction false} ViewsOfEmitted(out: seq<HeldMessage>, spec: seq<Emitted>, messages: seq<HeldMessage>,
                                          store: Store)
    requires Emits(out, spec) && StoreIs(messages, store) && KeptIn(spec, store.Keys) && store.Keys == Arrays(messages)
    ensures Views(out) == SeenIn(spec, store)
  {
    if out != [] {
      hide ViewsIn, Views, View, SeenIn, SeenOne, Emits, StoreIs, KeptIn;
      EmitsFirst(out, spec, messages, store);
      ViewsFirst(out);
      SeenFirst(spec, store);
      ViewsOfEmitted(out[1..], spec[1..], messages, store);
    } else {
      assert spec == [] && Views(out) == [];
    }
  }

  lemma {:induction false} EmitsFirst(out: seq<HeldMessage>, spec: seq<Emitted>, messages: seq<HeldMessage>,
                                      store: Store)
    requires Emits(out, spec) && StoreIs(messages, store) && KeptIn(spec, store.Keys) && store.Keys == Arrays(messages)
    requires out != []
    ensures spec != [] && Emits(out[1..], spec[1..]) && (spec[0].Kept? ==> spec[0].m.content in store)
    ensures View(out[0]) == SeenOne(spec[0], store)
  {
    assert spec[0] in spec;
    assert forall k | 0 <= k < |out| - 1 :: out[1..][k] == out[k + 1] && out[1..][k] in out[1..];
  }

  /** What the rewrite comes to for a history in which no array that is changed is shared. */
  lemma {:induction false} Delivered(messages: seq<HeldMessage>, before: Store, out: seq<HeldMessage>)
    requires Holds(messages, before) && before.Keys == Arrays(messages) && Unshared(messages, before)
    requires Emits(out, Rewrite(messages, before).out) && StoreIs(messages, Rewrite(messages, before).store)
    ensures Views(out) == Normalize(ViewsIn(messages, before))
    ensures Views(messages) == CallerAfter(ViewsIn(messages, before))
  {
    hide Rewrite, Normalize, CallerAfter, Unshared, Views;
    UnsharedAgrees(messages, before);
    ViewsOf(messages, Rewrite(messages, before).store);
    ViewsOfEmitted(out, Rewrite(messages, before).out, messages, Rewrite(messages, before).store);
  }

  /** A message of the user that shares its array with the anchor: it gets the preamble's text as well. */
  lemma {:induction false} SharedIsChanged(x: array<ContentBlock>, y: array<ContentBlock>, store: Store)
    requires x in store && y in store && x != y && store[x] == [Plain("a")] && store[y] == [Plain("p")]
    ensures var calls := [ToolCall("x", "f", "{}")];
      var ms := [HeldMessage(User, x, [], "", None), HeldMessage(Assistant, x, calls, "", None),
                 HeldMessage(Assistant, y, [], "", None)];
      && Holds(ms, store) && !Agrees(ms, store)
      && Rewrite(ms, store).out[..1] == [Kept(ms[0])]
      && Rewrite(ms, store).store[x] != store[x] && Normalize(ViewsIn(ms, store))[..1] == [ViewIn(ms[0], store)]
  {
    var first := HeldMessage(User, x, [], "", None);
    var anchor := HeldMessage(Assistant, x, [ToolCall("x", "f", "{}")], "", None);
    var preamble := HeldMessage(Assistant, y, [], "", None);
    hide *;
    SharedAt([first, anchor, preamble], first, anchor, preamble, store);
  }

  lemma {:induction false} SharedAt(ms: seq<HeldMessage>, first: HeldMessage, anchor: HeldMessage,
                                    preamble: HeldMessage, store: Store)
    requires ms == [first, anchor, preamble] && first.role.User? && first.content == anchor.content
    requires anchor.role.Assistant? && anchor.toolCalls == [ToolCall("x", "f", "{}")]
    requires preamble == HeldMessage(Assistant, preamble.content, [], "", None)
    requires first.content in store && preamble.content in store && preamble.content != first.content
    requires store[first.content] == [Plain("a")] && store[preamble.content] == [Plain("p")]
    ensures Holds(ms, store) && !Agrees(ms, store) && Rewrite(ms, store).out[..1] == [Kept(first)]
    ensures Rewrite(ms, store).store[first.content] != store[first.content]
    ensures Normalize(ViewsIn(ms, store))[..1] == [ViewIn(first, store)]
  {
    var rest, values := ms[1..], ViewsIn(ms, store);
    assert rest == [anchor, preamble];
    AnchorWrites(rest, anchor, preamble, store);
    hide Absorb, IdSet, WalkIn, Written;
    RewriteAt(ms, store);
    AfterMessage(values);
    var r := Rewrite(ms, store);
    assert r.out[0] == Kept(first) && r.store == Rewrite(rest, store).store;
    if KeptIn(r.out, store.Keys) {
      SeenFirst(r.out, r.store);
      assert SeenIn(r.out, r.store)[0] == ViewIn(first, r.store);
      assert Normalize(values)[0] == ViewIn(first, store);
    }
  }

  lemma {:induction false} AnchorWrites(ms: seq<HeldMessage>, anchor: HeldMessage, preamble: HeldMessage, store: Store)
    requires ms == [anchor, preamble] && anchor.role.Assistant? && anchor.toolCalls == [ToolCall("x", "f", "{}")]
    requires preamble == HeldMessage(Assistant, preamble.content, [], "", None)
    requires anchor.content in store && preamble.content in store
    requires store[anchor.content] == [Plain("a")] && store[preamble.content] == [Plain("p")]
    ensures Holds(ms, store) && Rewrite(ms, store).store[anchor.content] != store[anchor.content]
  {
    assert ms[1..] == [preamble];
    assert ViewsIn(ms[1..], store) == [Says([Plain("p")], [])];
    assert IdSet(ms[0].toolCalls) == {"x"};
    hide Absorb, IdSet, Normalize;
    OneAbsorbed("p");
    var w := WalkIn(ms, store);
    assert w == Walk([], ["p"], [], {"x"}, []) && ms[2..] == [];
    hide WalkIn;
    RewriteAt(ms, store);
    TouchedGrows(ViewIn(anchor, store), w);
    assert IsPlainText(store[anchor.content][0]);
  }
}
