/**
 * The tool-call history normaliser of the relay codec (internal/agent/relay/codec/messages.go).
 *
 * `Normalize` is the function the two-index rewrite computes.  Its laws are stated against views of
 * a history that know nothing about segments: the non-assistant messages, the tool calls, the lines
 * of assistant text, and a one-pass bracket check `Closed`.
 */
module Messages {
  import opened Options

  datatype Role = System | User | Assistant | Tool | Developer | OtherRole(name: string)

  datatype ContentKind = Text | OtherContent(name: string)

  /** `payload` stands for the media and metadata fields, which the normaliser only copies. */
  datatype ContentBlock = ContentBlock(kind: ContentKind, text: string, rawJson: Option<string>, payload: string)

  datatype ToolCall = ToolCall(id: string, name: string, arguments: string)

  datatype Message = Message(
    role: Role, content: seq<ContentBlock>, toolCalls: seq<ToolCall>, toolCallId: string, rawJson: Option<string>)

  const SEPARATOR := "\n\n"

  // ---------------------------------------------------------------------------------------------
  // The rewrite
  // ---------------------------------------------------------------------------------------------

  predicate IsAnchor(m: Message) {
    m.role.Assistant? && m.toolCalls != []
  }

  function IdSet(calls: seq<ToolCall>): set<string> {
    set c | c in calls :: c.id
  }

  /** The non-empty texts of the text blocks, raw or not. */
  function Texts(content: seq<ContentBlock>): seq<string> {
    if content == [] then []
    else (if content[0].kind.Text? && content[0].text != "" then [content[0].text] else []) + Texts(content[1..])
  }

  function Join(texts: seq<string>): string {
    if texts == [] then ""
    else if |texts| == 1 then texts[0]
    else texts[0] + SEPARATOR + Join(texts[1..])
  }

  /** A block that preamble text may be appended to. */
  predicate IsPlainText(b: ContentBlock) {
    b.kind.Text? && b.rawJson.None?
  }

  function Extended(b: ContentBlock, joined: string): ContentBlock {
    b.(text := if b.text != "" then b.text + SEPARATOR + joined else joined)
  }

  function AppendJoined(content: seq<ContentBlock>, joined: string): seq<ContentBlock> {
    if content == [] then [ContentBlock(Text, joined, None, "")]
    else if IsPlainText(content[0]) then [Extended(content[0], joined)] + content[1..]
    else [content[0]] + AppendJoined(content[1..], joined)
  }

  function MergeTexts(content: seq<ContentBlock>, texts: seq<string>): seq<ContentBlock> {
    if texts == [] then content else AppendJoined(content, Join(texts))
  }

  /** What a walk behind an anchor collects, the ids it leaves unanswered, and where it stops. */
  datatype Walk = Walk(
    calls: seq<ToolCall>, texts: seq<string>, replies: seq<Message>, unanswered: set<string>, rest: seq<Message>)

  function Absorb(pending: set<string>, ms: seq<Message>): Walk
    decreases |ms|
  {
    if ms == [] || pending == {} then Walk([], [], [], pending, ms)
    else if ms[0].role.Assistant? then
      var w := Absorb(pending + IdSet(ms[0].toolCalls), ms[1..]);
      w.(calls := ms[0].toolCalls + w.calls, texts := Texts(ms[0].content) + w.texts)
    else if ms[0].role.Tool? && ms[0].toolCallId in pending then
      var w := Absorb(pending - {ms[0].toolCallId}, ms[1..]);
      w.(replies := [ms[0]] + w.replies)
    else Walk([], [], [], pending, ms)
  }

  lemma {:induction false} AbsorbShrinks(pending: set<string>, ms: seq<Message>)
    ensures |Absorb(pending, ms).rest| <= |ms|
    decreases |ms|
  {
    if ms == [] || pending == {} {
    } else if ms[0].role.Assistant? {
      AbsorbShrinks(pending + IdSet(ms[0].toolCalls), ms[1..]);
    } else if ms[0].role.Tool? && ms[0].toolCallId in pending {
      AbsorbShrinks(pending - {ms[0].toolCallId}, ms[1..]);
    }
  }

  function Merged(anchor: Message, w: Walk): Message {
    anchor.(toolCalls := anchor.toolCalls + w.calls, content := MergeTexts(anchor.content, w.texts))
  }

  function Normalize(ms: seq<Message>): seq<Message>
    decreases |ms|
  {
    if ms == [] then []
    else if !IsAnchor(ms[0]) then [ms[0]] + Normalize(ms[1..])
    else
      var w := Absorb(IdSet(ms[0].toolCalls), ms[1..]);
      AbsorbShrinks(IdSet(ms[0].toolCalls), ms[1..]);
      [Merged(ms[0], w)] + w.replies + Normalize(w.rest)
  }

  // ---------------------------------------------------------------------------------------------
  // Idempotence
  // ---------------------------------------------------------------------------------------------

  function ReplyIds(ms: seq<Message>): seq<string> {
    if ms == [] then [] else [ms[0].toolCallId] + ReplyIds(ms[1..])
  }

  function Remaining(pending: set<string>, replies: seq<Message>): set<string> {
    set id | id in pending && id !in ReplyIds(replies)
  }

  ghost predicate AllTools(ms: seq<Message>) {
    forall m | m in ms :: m.role.Tool?
  }

  /** A walk with these ids pending does not take the first message of `ms`. */
  ghost predicate Blocked(pending: set<string>, ms: seq<Message>) {
    pending == {} || ms == [] || (!ms[0].role.Assistant? && !(ms[0].role.Tool? && ms[0].toolCallId in pending))
  }

  lemma {:induction false} AbsorbStops(pending: set<string>, ms: seq<Message>)
    ensures var w := Absorb(pending, ms);
      && AllTools(w.replies)
      && Blocked(w.unanswered, w.rest)
      && Remaining(pending + IdSet(w.calls), w.replies) <= w.unanswered
    decreases |ms|
  {
    if ms == [] || pending == {} {
    } else if ms[0].role.Assistant? {
      AbsorbStops(pending + IdSet(ms[0].toolCalls), ms[1..]);
    } else if ms[0].role.Tool? && ms[0].toolCallId in pending {
      AbsorbStops(pending - {ms[0].toolCallId}, ms[1..]);
      var w, v := Absorb(pending, ms), Absorb(pending - {ms[0].toolCallId}, ms[1..]);
      assert ReplyIds(w.replies) == [ms[0].toolCallId] + ReplyIds(v.replies);
    }
  }

  lemma {:induction false} RemainingOfNone(pending: set<string>)
    ensures Remaining(pending, []) == pending
  {
  }

  lemma {:induction false} RemainingSkips(pending: set<string>, replies: seq<Message>)
    requires replies != []
    ensures Remaining(pending, replies) == Remaining(pending - {replies[0].toolCallId}, replies[1..])
  {
  }

  /** A second walk over collected replies takes a prefix of them and nothing else. */
  lemma {:induction false} AbsorbReplies(pending: set<string>, replies: seq<Message>, tail: seq<Message>)
    returns (k: nat)
    requires AllTools(replies)
    requires Blocked(Remaining(pending, replies), tail)
    ensures k <= |replies|
    ensures var w := Absorb(pending, replies + tail);
      w.calls == [] && w.texts == [] && w.replies == replies[..k] && w.rest == replies[k..] + tail
  {
    hide ReplyIds, Remaining;
    k := 0;
    assert replies[0..] == replies;
    if replies == [] {
      RemainingOfNone(pending);
      assert replies + tail == tail;
    } else if replies[0].toolCallId in pending {
      RemainingSkips(pending, replies);
      var k' := AbsorbReplies(pending - {replies[0].toolCallId}, replies[1..], tail);
      assert (replies + tail)[1..] == replies[1..] + tail;
      k := k' + 1;
      assert replies[..k] == [replies[0]] + replies[1..][..k'];
    }
  }

  lemma {:induction false} NormalizePassesTools(tools: seq<Message>, tail: seq<Message>)
    requires AllTools(tools)
    ensures Normalize(tools + tail) == tools + Normalize(tail)
  {
    if tools == [] {
      assert tools + tail == tail;
    } else {
      assert (tools + tail)[1..] == tools[1..] + tail;
      NormalizePassesTools(tools[1..], tail);
    }
  }

  lemma {:induction false} NormalizeKeepsBlocked(pending: set<string>, ms: seq<Message>)
    requires Blocked(pending, ms)
    ensures Blocked(pending, Normalize(ms))
  {
    if pending != {} && ms != [] {
      assert Normalize(ms)[0] == ms[0];
    }
  }

  lemma {:induction false} NormalizeAnchor(a: Message, ms: seq<Message>)
    requires IsAnchor(a)
    ensures var w := Absorb(IdSet(a.toolCalls), ms);
      Normalize([a] + ms) == [Merged(a, w)] + w.replies + Normalize(w.rest)
  {
    assert ([a] + ms)[1..] == ms;
  }

  /** Normalising the output of one segment gives that segment back. */
  lemma {:induction false} NormalizeSegmentAgain(a: Message, replies: seq<Message>, tail: seq<Message>)
    requires IsAnchor(a) && AllTools(replies)
    requires Blocked(Remaining(IdSet(a.toolCalls), replies), tail)
    requires Normalize(tail) == tail
    ensures Normalize([a] + replies + tail) == [a] + replies + tail
  {
    hide Absorb, Normalize, Join, AppendJoined;
    var k := AbsorbReplies(IdSet(a.toolCalls), replies, tail);
    var w := Absorb(IdSet(a.toolCalls), replies + tail);
    NormalizeAnchor(a, replies + tail);
    NormalizePassesTools(replies[k..], tail);
    assert w.calls == [] && w.texts == [] && Merged(a, w) == a;
    assert [a] + replies + tail == [a] + (replies + tail);
    assert [a] + replies[..k] + (replies[k..] + tail) == [a] + replies + tail;
  }

  lemma {:induction false} NormalizeIdempotent(ms: seq<Message>)
    ensures Normalize(Normalize(ms)) == Normalize(ms)
    decreases |ms|
  {
    if ms == [] {
    } else if !IsAnchor(ms[0]) {
      NormalizeIdempotent(ms[1..]);
      assert Normalize(ms)[1..] == Normalize(ms[1..]);
    } else {
      var w := Absorb(IdSet(ms[0].toolCalls), ms[1..]);
      AbsorbShrinks(IdSet(ms[0].toolCalls), ms[1..]);
      NormalizeIdempotent(w.rest);
      AbsorbStops(IdSet(ms[0].toolCalls), ms[1..]);
      var a := Merged(ms[0], w);
      assert IdSet(a.toolCalls) == IdSet(ms[0].toolCalls) + IdSet(w.calls);
      NormalizeKeepsBlocked(w.unanswered, w.rest);
      NormalizeSegmentAgain(a, w.replies, Normalize(w.rest));
    }
  }

  // ---------------------------------------------------------------------------------------------
  // The loops
  // ---------------------------------------------------------------------------------------------

  lemma {:induction false} TextsAppend(a: seq<ContentBlock>, b: seq<ContentBlock>)
    ensures Texts(a + b) == Texts(a) + Texts(b)
  {
    if a == [] {
      assert a + b == b;
    } else {
      assert (a + b)[1..] == a[1..] + b;
      TextsAppend(a[1..], b);
    }
  }

  method CollectTexts(content: seq<ContentBlock>) returns (texts: seq<string>)
    ensures texts == Texts(content)
  {
    texts := [];
    for k := 0 to |content|
      invariant texts == Texts(content[..k])
    {
      TextsAppend(content[..k], [content[k]]);
      assert content[..k + 1] == content[..k] + [content[k]];
      if content[k].kind.Text? && content[k].text != "" {
        texts := texts + [content[k].text];
      }
    }
    assert content[..|content|] == content;
  }

  method AddIds(pending: set<string>, calls: seq<ToolCall>) returns (grown: set<string>)
    ensures grown == pending + IdSet(calls)
  {
    grown := pending;
    for k := 0 to |calls|
      invariant grown == pending + IdSet(calls[..k])
    {
      assert calls[..k + 1] == calls[..k] + [calls[k]];
      grown := grown + {calls[k].id};
    }
    assert calls[..|calls|] == calls;
  }

  lemma {:induction false} AppendJoinedAt(content: seq<ContentBlock>, joined: string, k: nat)
    requires k < |content| && IsPlainText(content[k])
    requires forall n | 0 <= n < k :: !IsPlainText(content[n])
    ensures AppendJoined(content, joined) == content[k := Extended(content[k], joined)]
  {
    hide Extended;
    if k > 0 {
      AppendJoinedAt(content[1..], joined, k - 1);
    }
  }

  lemma {:induction false} AppendJoinedNowhere(content: seq<ContentBlock>, joined: string)
    requires forall n | 0 <= n < |content| :: !IsPlainText(content[n])
    ensures AppendJoined(content, joined) == content + [ContentBlock(Text, joined, None, "")]
  {
    if content != [] {
      AppendJoinedNowhere(content[1..], joined);
    }
  }

  lemma {:induction false} ExtendedGrows(b: ContentBlock, joined: string)
    requires joined != ""
    ensures Extended(b, joined) != b
  {
    assert |Extended(b, joined).text| > |b.text|;
  }

  predicate HasPlainText(content: seq<ContentBlock>) {
    exists k | 0 <= k < |content| :: IsPlainText(content[k])
  }

  /**
   * The content merge, on the array behind the message's content.  The array is the caller's own: it
   * stays untouched exactly when it holds no plain text block, so a history that has one in front of a
   * preamble is changed under the caller's feet.
   */
  method MergePreambles(content: array<ContentBlock>, joined: string) returns (merged: array<ContentBlock>)
    requires joined != ""
    modifies content
    ensures merged[..] == AppendJoined(old(content[..]), joined)
    ensures merged == content <==> old(HasPlainText(content[..]))
    ensures content[..] == old(content[..]) <==> !old(HasPlainText(content[..]))
    ensures merged == content || fresh(merged)
  {
    hide AppendJoined, Extended, IsPlainText;
    ghost var before := content[..];
    for k := 0 to content.Length
      invariant content[..] == before
      invariant forall n | 0 <= n < k :: !IsPlainText(before[n])
    {
      if IsPlainText(content[k]) {
        AppendJoinedAt(before, joined, k);
        ExtendedGrows(before[k], joined);
        content[k] := Extended(content[k], joined);
        assert content[..] == before[k := Extended(before[k], joined)];
        return content;
      }
    }
    AppendJoinedNowhere(before, joined);
    merged := new ContentBlock[content.Length + 1](
      n reads content => if 0 <= n < content.Length then content[n] else ContentBlock(Text, joined, None, ""));
    assert merged[..] == before + [ContentBlock(Text, joined, None, "")];
  }

  lemma {:induction false} JoinNonEmpty(texts: seq<string>)
    requires texts != [] && texts[0] != ""
    ensures Join(texts) != ""
  {
  }

  lemma {:induction false} TextsNonEmpty(content: seq<ContentBlock>)
    ensures "" !in Texts(content)
  {
    if content != [] {
      TextsNonEmpty(content[1..]);
    }
  }

  // ---------------------------------------------------------------------------------------------
  // The caller's history
  // ---------------------------------------------------------------------------------------------

  /** What the merge makes of the anchor in the caller's own history. */
  function Touched(anchor: Message, w: Walk): Message {
    if w.texts != [] && HasPlainText(anchor.content) then anchor.(content := MergeTexts(anchor.content, w.texts))
    else anchor
  }

  /** The caller's history after the call. */
  function CallerAfter(ms: seq<Message>): (after: seq<Message>)
    ensures |after| == |ms|
    decreases |ms|
  {
    if ms == [] then []
    else if !IsAnchor(ms[0]) then [ms[0]] + CallerAfter(ms[1..])
    else
      var w := Absorb(IdSet(ms[0].toolCalls), ms[1..]);
      AbsorbShrinks(IdSet(ms[0].toolCalls), ms[1..]);
      [Touched(ms[0], w)] + ms[1..|ms| - |w.rest|] + CallerAfter(w.rest)
  }

  /** No anchor the rewrite reaches has both a plain text block and text to absorb. */
  predicate Spares(ms: seq<Message>)
    decreases |ms|
  {
    if ms == [] then true
    else if !IsAnchor(ms[0]) then Spares(ms[1..])
    else
      var w := Absorb(IdSet(ms[0].toolCalls), ms[1..]);
      AbsorbShrinks(IdSet(ms[0].toolCalls), ms[1..]);
      (w.texts == [] || !HasPlainText(ms[0].content)) && Spares(w.rest)
  }

  lemma {:induction false} AbsorbRest(pending: set<string>, ms: seq<Message>)
    ensures var rest := Absorb(pending, ms).rest; |rest| <= |ms| && ms[|ms| - |rest|..] == rest
    ensures "" !in Absorb(pending, ms).texts
    decreases |ms|
  {
    if ms == [] || pending == {} {
    } else if ms[0].role.Assistant? {
      AbsorbRest(pending + IdSet(ms[0].toolCalls), ms[1..]);
      TextsNonEmpty(ms[0].content);
    } else if ms[0].role.Tool? && ms[0].toolCallId in pending {
      AbsorbRest(pending - {ms[0].toolCallId}, ms[1..]);
    }
  }

  lemma {:induction false} TouchedGrows(anchor: Message, w: Walk)
    requires "" !in w.texts
    ensures Touched(anchor, w) == anchor <==> w.texts == [] || !HasPlainText(anchor.content)
  {
    if w.texts != [] && HasPlainText(anchor.content) {
      hide AppendJoined, Extended;
      JoinNonEmpty(w.texts);
      var k := FirstPlainText(anchor.content);
      AppendJoinedAt(anchor.content, Join(w.texts), k);
      ExtendedGrows(anchor.content[k], Join(w.texts));
      assert MergeTexts(anchor.content, w.texts)[k] != anchor.content[k];
    }
  }

  lemma {:induction false} FirstPlainText(content: seq<ContentBlock>) returns (k: nat)
    requires HasPlainText(content)
    ensures k < |content| && IsPlainText(content[k]) && forall n | 0 <= n < k :: !IsPlainText(content[n])
  {
    var some :| 0 <= some < |content| && IsPlainText(content[some]);
    k := 0;
    while !IsPlainText(content[k])
      invariant 0 <= k <= some && forall n | 0 <= n < k :: !IsPlainText(content[n])
      decreases some - k
    {
      k := k + 1;
    }
  }

  lemma {:induction false} AtAnchor(ms: seq<Message>, w: Walk)
    requires ms != [] && IsAnchor(ms[0]) && w == Absorb(IdSet(ms[0].toolCalls), ms[1..])
    ensures |w.rest| < |ms| && CallerAfter(ms) == [Touched(ms[0], w)] + ms[1..|ms| - |w.rest|] + CallerAfter(w.rest)
    ensures Spares(ms) <==> (w.texts == [] || !HasPlainText(ms[0].content)) && Spares(w.rest)
  {
    hide Absorb, IdSet, Touched, HasPlainText;
    AbsorbShrinks(IdSet(ms[0].toolCalls), ms[1..]);
  }

  /**
   * The promise that the input is not changed holds exactly of the histories in which no anchor that the
   * rewrite reaches has both a plain text block and absorbed text.
   */
  lemma {:induction false} InputUnchangedIff(ms: seq<Message>)
    ensures CallerAfter(ms) == ms <==> Spares(ms)
    decreases |ms|
  {
    if ms == [] {
    } else if !IsAnchor(ms[0]) {
      InputUnchangedIff(ms[1..]);
      assert ms == [ms[0]] + ms[1..] && CallerAfter(ms)[1..] == CallerAfter(ms[1..]);
    } else {
      hide Touched, Absorb, IdSet, HasPlainText, CallerAfter, Spares;
      var w := Absorb(IdSet(ms[0].toolCalls), ms[1..]);
      AtAnchor(ms, w);
      InputUnchangedIff(w.rest);
      SegmentUnchanged(ms, w);
    }
  }

  lemma {:induction false} SegmentUnchanged(ms: seq<Message>, w: Walk)
    requires ms != [] && IsAnchor(ms[0]) && w == Absorb(IdSet(ms[0].toolCalls), ms[1..]) && |w.rest| < |ms|
    ensures [Touched(ms[0], w)] + ms[1..|ms| - |w.rest|] + CallerAfter(w.rest) == ms
      <==> (w.texts == [] || !HasPlainText(ms[0].content)) && CallerAfter(w.rest) == w.rest
  {
    hide Touched, Absorb, IdSet, HasPlainText, CallerAfter;
    AbsorbRest(IdSet(ms[0].toolCalls), ms[1..]);
    TouchedGrows(ms[0], w);
    var n := |ms| - |w.rest|;
    assert ms[1..][n - 1..] == ms[n..];
    assert ms == [ms[0]] + ms[1..n] + w.rest;
    OnlyEnds(ms[0], Touched(ms[0], w), ms[1..n], w.rest, CallerAfter(w.rest));
  }

  lemma {:induction false} OnlyEnds<T>(x: T, x': T, middle: seq<T>, tail: seq<T>, tail': seq<T>)
    ensures [x'] + middle + tail' == [x] + middle + tail <==> x' == x && tail' == tail
  {
    var a, b := [x] + middle + tail, [x'] + middle + tail';
    assert a[0] == x && b[0] == x' && a[1 + |middle|..] == tail && b[1 + |middle|..] == tail';
  }

  /** A plain text block, and an assistant message of some blocks and calls. */
  function Plain(text: string): ContentBlock {
    ContentBlock(Text, text, None, "")
  }

  function Says(content: seq<ContentBlock>, calls: seq<ToolCall>): Message {
    Message(Assistant, content, calls, "", None)
  }

  /** One call and one preamble behind it: the caller's own anchor gets the preamble's text. */
  lemma {:induction false} InputCanChange()
    ensures var ms := [Says([Plain("a")], [ToolCall("x", "f", "{}")]), Says([Plain("p")], [])];
      CallerAfter(ms) != ms
  {
    var call, a, p := ToolCall("x", "f", "{}"), Plain("a"), Plain("p");
    var anchor, preamble := Says([a], [call]), Says([p], []);
    var ms := [anchor, preamble];
    assert call.id in IdSet([call]) && ms[1..] == [preamble];
    assert Absorb(IdSet([call]), [preamble]).texts == Texts([p]) + Absorb(IdSet([call]) + IdSet([]), []).texts;
    assert Texts([p]) == ["p"] + Texts([]);
    assert IsPlainText([a][0]);
    assert !Spares(ms);
    InputUnchangedIff(ms);
  }

  // ---------------------------------------------------------------------------------------------
  // The inner loop
  // ---------------------------------------------------------------------------------------------

  /** A walk from the anchor at index i that has come to index j. */
  ghost predicate Walked(values: seq<Message>, i: nat, j: nat, calls: seq<ToolCall>, texts: seq<string>,
                         replies: seq<Message>, pending: set<string>)
    requires i < |values| && j <= |values|
  {
    Absorb(IdSet(values[i].toolCalls), values[i + 1..]) == Behind(calls, texts, replies, Absorb(pending, values[j..]))
  }

  lemma {:induction false} WalkStarts(values: seq<Message>, i: nat)
    requires i < |values|
    ensures Walked(values, i, i + 1, [], [], [], IdSet(values[i].toolCalls))
  {
    var w := Absorb(IdSet(values[i].toolCalls), values[i + 1..]);
    assert [] + w.calls == w.calls && [] + w.texts == w.texts && [] + w.replies == w.replies;
  }

  lemma {:induction false} WalkTakesAssistant(values: seq<Message>, i: nat, j: nat, calls: seq<ToolCall>,
                                              texts: seq<string>, replies: seq<Message>, pending: set<string>)
    requires i < |values| && j < |values| && pending != {} && values[j].role.Assistant?
    requires Walked(values, i, j, calls, texts, replies, pending)
    ensures Walked(values, i, j + 1, calls + values[j].toolCalls, texts + Texts(values[j].content), replies,
                   pending + IdSet(values[j].toolCalls))
  {
    hide Behind, IdSet, Texts;
    assert values[j..][0] == values[j] && values[j..][1..] == values[j + 1..];
    BehindCalls(calls, texts, replies, values[j], Absorb(pending + IdSet(values[j].toolCalls), values[j + 1..]));
  }

  lemma {:induction false} WalkTakesReply(values: seq<Message>, i: nat, j: nat, calls: seq<ToolCall>,
                                          texts: seq<string>, replies: seq<Message>, pending: set<string>)
    requires i < |values| && j < |values| && values[j].role.Tool? && values[j].toolCallId in pending
    requires Walked(values, i, j, calls, texts, replies, pending)
    ensures Walked(values, i, j + 1, calls, texts, replies + [values[j]], pending - {values[j].toolCallId})
  {
    hide Behind, IdSet, Texts;
    assert values[j..][0] == values[j] && values[j..][1..] == values[j + 1..];
    BehindReply(calls, texts, replies, values[j], Absorb(pending - {values[j].toolCallId}, values[j + 1..]));
  }

  lemma {:induction false} AbsorbBlocked(pending: set<string>, ms: seq<Message>)
    requires Blocked(pending, ms)
    ensures Absorb(pending, ms) == Walk([], [], [], pending, ms)
  {
  }

  lemma {:induction false} BehindNothing(calls: seq<ToolCall>, texts: seq<string>, replies: seq<Message>,
                                         pending: set<string>, rest: seq<Message>)
    ensures Behind(calls, texts, replies, Walk([], [], [], pending, rest)) == Walk(calls, texts, replies, pending, rest)
  {
  }

  lemma {:induction false} WalkStops(values: seq<Message>, i: nat, j: nat, calls: seq<ToolCall>, texts: seq<string>,
                                     replies: seq<Message>, pending: set<string>)
    requires i < |values| && j <= |values| && Walked(values, i, j, calls, texts, replies, pending)
    requires Blocked(pending, values[j..])
    ensures var w := Absorb(IdSet(values[i].toolCalls), values[i + 1..]);
      w.calls == calls && w.texts == texts && w.replies == replies && w.rest == values[j..]
  {
    hide Absorb, IdSet, Behind, Blocked;
    AbsorbBlocked(pending, values[j..]);
    BehindNothing(calls, texts, replies, pending, values[j..]);
  }

  lemma {:induction false} StopBlocks(values: seq<Message>, j: nat, pending: set<string>)
    requires j <= |values|
    requires pending == {} || j == |values|
      || (!values[j].role.Assistant? && !(values[j].role.Tool? && values[j].toolCallId in pending))
    ensures Blocked(pending, values[j..])
  {
  }

  ghost function Behind(calls: seq<ToolCall>, texts: seq<string>, replies: seq<Message>, w: Walk): Walk {
    w.(calls := calls + w.calls, texts := texts + w.texts, replies := replies + w.replies)
  }

  lemma {:induction false} BehindCalls(
    calls: seq<ToolCall>, texts: seq<string>, replies: seq<Message>, m: Message, w: Walk)
    ensures Behind(calls, texts, replies, w.(calls := m.toolCalls + w.calls, texts := Texts(m.content) + w.texts))
      == Behind(calls + m.toolCalls, texts + Texts(m.content), replies, w)
  {
  }

  lemma {:induction false} BehindReply(
    calls: seq<ToolCall>, texts: seq<string>, replies: seq<Message>, m: Message, w: Walk)
    ensures Behind(calls, texts, replies, w.(replies := [m] + w.replies))
      == Behind(calls, texts, replies + [m], w)
  {
  }
}
