/** What a normalised history keeps of the original one, and when its tool replies are adjacent. */
module MessageLaws {
  import opened Options
  import opened Messages

  // ---------------------------------------------------------------------------------------------
  // Conservation of messages and tool calls
  // ---------------------------------------------------------------------------------------------

  function NonAssistants(ms: seq<Message>): seq<Message> {
    if ms == [] then [] else (if ms[0].role.Assistant? then [] else [ms[0]]) + NonAssistants(ms[1..])
  }

  function AssistantCalls(ms: seq<Message>): seq<ToolCall> {
    if ms == [] then [] else (if ms[0].role.Assistant? then ms[0].toolCalls else []) + AssistantCalls(ms[1..])
  }

  lemma {:induction false} NonAssistantsAppend(a: seq<Message>, b: seq<Message>)
    ensures NonAssistants(a + b) == NonAssistants(a) + NonAssistants(b)
  {
    if a == [] {
      assert a + b == b;
    } else {
      assert (a + b)[0] == a[0] && (a + b)[1..] == a[1..] + b;
      NonAssistantsAppend(a[1..], b);
    }
  }

  lemma {:induction false} AssistantCallsAppend(a: seq<Message>, b: seq<Message>)
    ensures AssistantCalls(a + b) == AssistantCalls(a) + AssistantCalls(b)
  {
    if a == [] {
      assert a + b == b;
    } else {
      assert (a + b)[0] == a[0] && (a + b)[1..] == a[1..] + b;
      AssistantCallsAppend(a[1..], b);
    }
  }

  lemma {:induction false} ViewsAppend(a: seq<Message>, b: seq<Message>)
    ensures NonAssistants(a + b) == NonAssistants(a) + NonAssistants(b)
    ensures AssistantCalls(a + b) == AssistantCalls(a) + AssistantCalls(b)
  {
    hide *;
    NonAssistantsAppend(a, b);
    AssistantCallsAppend(a, b);
  }

  lemma {:induction false} ViewsOfTools(tools: seq<Message>)
    requires AllTools(tools)
    ensures NonAssistants(tools) == tools && AssistantCalls(tools) == []
  {
    if tools != [] {
      ViewsOfTools(tools[1..]);
    }
  }

  /** The non-empty texts of the assistants, block by block. */
  function TextsOf(ms: seq<Message>): seq<string> {
    if ms == [] then [] else (if ms[0].role.Assistant? then Texts(ms[0].content) else []) + TextsOf(ms[1..])
  }

  /** A walk takes a stretch of messages: their calls, their texts and the replies among them, each in order. */
  lemma {:induction false} AbsorbTakes(pending: set<string>, ms: seq<Message>) returns (taken: seq<Message>)
    ensures var w := Absorb(pending, ms);
      && ms == taken + w.rest
      && w.texts == TextsOf(taken) && w.calls == AssistantCalls(taken) && w.replies == NonAssistants(taken)
    ensures forall m | m in taken :: m.role.Assistant? || m.role.Tool?
    decreases |ms|
  {
    hide Texts, IdSet;
    taken := [];
    if ms == [] || pending == {} {
      assert ms == [] + ms;
    } else if ms[0].role.Assistant? {
      var more := AbsorbTakes(pending + IdSet(ms[0].toolCalls), ms[1..]);
      taken := [ms[0]] + more;
      assert taken[1..] == more;
    } else if ms[0].role.Tool? && ms[0].toolCallId in pending {
      var more := AbsorbTakes(pending - {ms[0].toolCallId}, ms[1..]);
      taken := [ms[0]] + more;
      assert taken[1..] == more;
    }
  }

  lemma {:induction false} AbsorbConserves(pending: set<string>, ms: seq<Message>)
    ensures var w := Absorb(pending, ms);
      && NonAssistants(ms) == w.replies + NonAssistants(w.rest)
      && AssistantCalls(ms) == w.calls + AssistantCalls(w.rest)
  {
    hide *;
    var taken := AbsorbTakes(pending, ms);
    ViewsAppend(taken, Absorb(pending, ms).rest);
  }

  /** No message other than an assistant's is lost, changed or reordered; nor is any tool call. */
  lemma {:induction false} NormalizeConserves(ms: seq<Message>)
    ensures NonAssistants(Normalize(ms)) == NonAssistants(ms)
    ensures AssistantCalls(Normalize(ms)) == AssistantCalls(ms)
    decreases |ms|
  {
    hide Absorb, IdSet, NonAssistants, AssistantCalls, Merged;
    if ms == [] {
    } else if !IsAnchor(ms[0]) {
      NormalizeConserves(ms[1..]);
      ViewsAppend([ms[0]], Normalize(ms[1..]));
      ViewsAppend([ms[0]], ms[1..]);
      assert ms == [ms[0]] + ms[1..];
    } else {
      var ids := IdSet(ms[0].toolCalls);
      AbsorbShrinks(ids, ms[1..]);
      NormalizeConserves(Absorb(ids, ms[1..]).rest);
      SegmentConserves(ms[0], ms[1..]);
      assert ms == [ms[0]] + ms[1..];
    }
  }

  /** One segment, if its rest conserves. */
  lemma {:induction false} SegmentConserves(anchor: Message, ms: seq<Message>)
    requires IsAnchor(anchor)
    requires var tail := Normalize(Absorb(IdSet(anchor.toolCalls), ms).rest);
      && NonAssistants(tail) == NonAssistants(Absorb(IdSet(anchor.toolCalls), ms).rest)
      && AssistantCalls(tail) == AssistantCalls(Absorb(IdSet(anchor.toolCalls), ms).rest)
    ensures NonAssistants(Normalize([anchor] + ms)) == NonAssistants([anchor] + ms)
    ensures AssistantCalls(Normalize([anchor] + ms)) == AssistantCalls([anchor] + ms)
  {
    hide Absorb, IdSet, NonAssistants, AssistantCalls, Normalize, MergeTexts, AllTools, Blocked, Remaining;
    var ids := IdSet(anchor.toolCalls);
    var w := Absorb(ids, ms);
    NormalizeAnchor(anchor, ms);
    AbsorbConserves(ids, ms);
    AbsorbStops(ids, ms);
    ViewsOfSegment(Merged(anchor, w), w.replies, Normalize(w.rest));
    ViewsOfOne(anchor);
    ViewsAppend([anchor], ms);
    var rest := AssistantCalls(w.rest);
    assert anchor.toolCalls + (w.calls + rest) == (anchor.toolCalls + w.calls) + rest;
  }

  lemma {:induction false} ViewsOfSegment(merged: Message, replies: seq<Message>, tail: seq<Message>)
    requires merged.role.Assistant? && AllTools(replies)
    ensures NonAssistants([merged] + replies + tail) == replies + NonAssistants(tail)
    ensures AssistantCalls([merged] + replies + tail) == merged.toolCalls + AssistantCalls(tail)
  {
    hide NonAssistants, AssistantCalls, AllTools;
    ViewsOfTools(replies);
    ViewsOfOne(merged);
    ViewsAppend([merged] + replies, tail);
    ViewsAppend([merged], replies);
  }

  lemma {:induction false} ViewsOfOne(m: Message)
    ensures NonAssistants([m]) == if m.role.Assistant? then [] else [m]
    ensures AssistantCalls([m]) == if m.role.Assistant? then m.toolCalls else []
  {
    assert [m][1..] == [];
  }

  // ---------------------------------------------------------------------------------------------
  // Conservation of assistant text, line by line
  // ---------------------------------------------------------------------------------------------

  function Flush(line: string): seq<string> {
    if line == "" then [] else [line]
  }

  function LinesFrom(line: string, s: string): seq<string>
    decreases |s|
  {
    if s == "" then Flush(line)
    else if s[0] == '\n' then Flush(line) + LinesFrom("", s[1..])
    else LinesFrom(line + [s[0]], s[1..])
  }

  /** The non-empty lines of a text.  Joining texts by blank lines adds no line and takes none away. */
  function Lines(s: string): seq<string> {
    LinesFrom("", s)
  }

  function LinesOfAll(texts: seq<string>): seq<string> {
    if texts == [] then [] else Lines(texts[0]) + LinesOfAll(texts[1..])
  }

  function ContentLines(content: seq<ContentBlock>): seq<string> {
    if content == [] then []
    else (if content[0].kind.Text? then Lines(content[0].text) else []) + ContentLines(content[1..])
  }

  function AssistantLines(ms: seq<Message>): seq<string> {
    if ms == [] then []
    else (if ms[0].role.Assistant? then ContentLines(ms[0].content) else []) + AssistantLines(ms[1..])
  }

  lemma {:induction false} LinesBreak(line: string, a: string, b: string)
    ensures LinesFrom(line, a + "\n" + b) == LinesFrom(line, a) + Lines(b)
    decreases |a|
  {
    if a == "" {
      assert a + "\n" + b == "\n" + b;
      assert ("\n" + b)[1..] == b;
    } else {
      assert (a + "\n" + b)[1..] == a[1..] + "\n" + b;
      if a[0] == '\n' {
        LinesBreak("", a[1..], b);
      } else {
        LinesBreak(line + [a[0]], a[1..], b);
      }
    }
  }

  lemma {:induction false} SeparatorBreaks(a: string, b: string)
    ensures Lines(a + SEPARATOR + b) == Lines(a) + Lines(b)
  {
    assert a + SEPARATOR + b == a + "\n" + ("" + "\n" + b);
    LinesBreak("", a, "" + "\n" + b);
    LinesBreak("", "", b);
  }

  lemma {:induction false} LinesOfJoin(texts: seq<string>)
    ensures Lines(Join(texts)) == LinesOfAll(texts)
  {
    if |texts| == 1 {
      assert LinesOfAll(texts[1..]) == [];
    } else if |texts| > 1 {
      LinesOfJoin(texts[1..]);
      SeparatorBreaks(texts[0], Join(texts[1..]));
    }
  }

  lemma {:induction false} LinesOfAllAppend(a: seq<string>, b: seq<string>)
    ensures LinesOfAll(a + b) == LinesOfAll(a) + LinesOfAll(b)
  {
    if a == [] {
      assert a + b == b;
    } else {
      assert (a + b)[1..] == a[1..] + b;
      LinesOfAllAppend(a[1..], b);
    }
  }

  lemma {:induction false} LinesOfTexts(content: seq<ContentBlock>)
    ensures LinesOfAll(Texts(content)) == ContentLines(content)
  {
    if content != [] {
      LinesOfTexts(content[1..]);
      if content[0].kind.Text? && content[0].text != "" {
        assert Texts(content)[1..] == Texts(content[1..]);
      } else {
        assert Texts(content) == Texts(content[1..]);
      }
    }
  }

  lemma {:induction false} AssistantLinesAppend(a: seq<Message>, b: seq<Message>)
    ensures AssistantLines(a + b) == AssistantLines(a) + AssistantLines(b)
  {
    if a == [] {
      assert a + b == b;
    } else {
      assert (a + b)[1..] == a[1..] + b;
      AssistantLinesAppend(a[1..], b);
    }
  }

  lemma {:induction false} AssistantLinesOfTools(tools: seq<Message>)
    requires AllTools(tools)
    ensures AssistantLines(tools) == []
  {
    if tools != [] {
      AssistantLinesOfTools(tools[1..]);
    }
  }

  /** The lines behind the block that preamble text goes into; empty when a block is added at the end. */
  function LinesAfterTarget(content: seq<ContentBlock>): seq<string> {
    if content == [] then []
    else if IsPlainText(content[0]) then ContentLines(content[1..])
    else LinesAfterTarget(content[1..])
  }

  function LinesUpToTarget(content: seq<ContentBlock>): seq<string> {
    if content == [] then []
    else
      (if content[0].kind.Text? then Lines(content[0].text) else [])
      + (if IsPlainText(content[0]) then [] else LinesUpToTarget(content[1..]))
  }

  lemma {:induction false} TargetSplits(content: seq<ContentBlock>)
    ensures ContentLines(content) == LinesUpToTarget(content) + LinesAfterTarget(content)
  {
    if content != [] && !IsPlainText(content[0]) {
      TargetSplits(content[1..]);
    }
  }

  lemma {:induction false} NoLines()
    ensures Lines("") == []
  {
  }

  lemma {:induction false} ExtendedLines(b: ContentBlock, joined: string)
    ensures Lines(Extended(b, joined).text) == Lines(b.text) + Lines(joined)
  {
    SeparatorBreaks(b.text, joined);
    NoLines();
  }

  function BlockLines(b: ContentBlock): seq<string> {
    if b.kind.Text? then Lines(b.text) else []
  }

  lemma {:induction false} ContentLinesCons(b: ContentBlock, rest: seq<ContentBlock>)
    ensures ContentLines([b] + rest) == BlockLines(b) + ContentLines(rest)
  {
    assert ([b] + rest)[1..] == rest;
  }

  /** The joined text lands behind the target's own lines and in front of every later block. */
  lemma {:induction false} AppendJoinedLines(content: seq<ContentBlock>, joined: string)
    ensures ContentLines(AppendJoined(content, joined))
      == LinesUpToTarget(content) + Lines(joined) + LinesAfterTarget(content)
  {
    hide Lines, Extended, ContentLines;
    if content == [] {
      ContentLinesCons(ContentBlock(Text, joined, None, ""), []);
      NoContent();
      assert [ContentBlock(Text, joined, None, "")] + [] == [ContentBlock(Text, joined, None, "")];
    } else if IsPlainText(content[0]) {
      ExtendedLines(content[0], joined);
      ExtendedStaysText(content[0], joined);
      ContentLinesCons(Extended(content[0], joined), content[1..]);
    } else {
      AppendJoinedLines(content[1..], joined);
      ContentLinesCons(content[0], AppendJoined(content[1..], joined));
    }
  }

  lemma {:induction false} NoContent()
    ensures ContentLines([]) == []
  {
  }

  lemma {:induction false} ExtendedStaysText(b: ContentBlock, joined: string)
    ensures Extended(b, joined).kind == b.kind
  {
  }

  lemma {:induction false} MergeTextsLines(content: seq<ContentBlock>, texts: seq<string>)
    ensures ContentLines(MergeTexts(content, texts))
      == LinesUpToTarget(content) + LinesOfAll(texts) + LinesAfterTarget(content)
  {
    TargetSplits(content);
    if texts != [] {
      AppendJoinedLines(content, Join(texts));
      LinesOfJoin(texts);
    }
  }

  lemma {:induction false} LinesOfTaken(ms: seq<Message>)
    ensures LinesOfAll(TextsOf(ms)) == AssistantLines(ms)
  {
    if ms != [] {
      hide Texts, ContentLines, Lines;
      LinesOfTaken(ms[1..]);
      LinesOfTexts(ms[0].content);
      LinesOfAllAppend(if ms[0].role.Assistant? then Texts(ms[0].content) else [], TextsOf(ms[1..]));
    }
  }

  lemma {:induction false} AbsorbKeepsLines(pending: set<string>, ms: seq<Message>)
    ensures var w := Absorb(pending, ms);
      AssistantLines(ms) == LinesOfAll(w.texts) + AssistantLines(w.rest)
  {
    hide *;
    var taken := AbsorbTakes(pending, ms);
    LinesOfTaken(taken);
    AssistantLinesAppend(taken, Absorb(pending, ms).rest);
  }

  lemma {:induction false} SegmentLines(a: Message, replies: seq<Message>, tail: seq<Message>)
    requires a.role.Assistant? && AllTools(replies)
    ensures AssistantLines([a] + replies + tail) == ContentLines(a.content) + AssistantLines(tail)
  {
    AssistantLinesOfTools(replies);
    AssistantLinesAppend([a] + replies, tail);
    AssistantLinesAppend([a], replies);
    assert AssistantLines([a]) == ContentLines(a.content) + AssistantLines([a][1..]);
  }

  /** The lines of one segment before and after, in terms of the anchor's blocks and the absorbed lines. */
  lemma {:induction false} SegmentKeepsLines(anchor: Message, ms: seq<Message>, w: Walk)
    requires IsAnchor(anchor) && w == Absorb(IdSet(anchor.toolCalls), ms)
    ensures ContentLines(anchor.content) + AssistantLines(ms)
      == LinesUpToTarget(anchor.content) + LinesAfterTarget(anchor.content) + LinesOfAll(w.texts)
        + AssistantLines(w.rest)
    ensures forall tail ::
      AssistantLines([Merged(anchor, w)] + w.replies + tail)
      == LinesUpToTarget(anchor.content) + LinesOfAll(w.texts) + LinesAfterTarget(anchor.content)
        + AssistantLines(tail)
  {
    hide Absorb, AppendJoined, Join, Lines, Texts, LinesUpToTarget, LinesAfterTarget, ContentLines, AssistantLines;
    AbsorbKeepsLines(IdSet(anchor.toolCalls), ms);
    TargetSplits(anchor.content);
    AbsorbStops(IdSet(anchor.toolCalls), ms);
    MergeTextsLines(anchor.content, w.texts);
    forall tail {
      SegmentLines(Merged(anchor, w), w.replies, tail);
    }
  }

  /** Every line of assistant text is kept, as often as it occurred. */
  lemma {:induction false} NormalizeKeepsLines(ms: seq<Message>)
    ensures multiset(AssistantLines(Normalize(ms))) == multiset(AssistantLines(ms))
    decreases |ms|
  {
    if ms == [] {
    } else if !IsAnchor(ms[0]) {
      NormalizeKeepsLines(ms[1..]);
      assert Normalize(ms)[1..] == Normalize(ms[1..]);
    } else {
      var w := Absorb(IdSet(ms[0].toolCalls), ms[1..]);
      AbsorbShrinks(IdSet(ms[0].toolCalls), ms[1..]);
      NormalizeKeepsLines(w.rest);
      SegmentKeepsLines(ms[0], ms[1..], w);
    }
  }

  /**
   * At every anchor the rewrite reaches, the absorbed lines and the anchor's lines behind the block they go
   * into come out the same in either order.
   */
  predicate LinesCommute(ms: seq<Message>)
    decreases |ms|
  {
    if ms == [] then true
    else if !IsAnchor(ms[0]) then LinesCommute(ms[1..])
    else
      var w := Absorb(IdSet(ms[0].toolCalls), ms[1..]);
      AbsorbShrinks(IdSet(ms[0].toolCalls), ms[1..]);
      var absorbed, after := LinesOfAll(w.texts), LinesAfterTarget(ms[0].content);
      absorbed + after == after + absorbed && LinesCommute(w.rest)
  }

  lemma {:induction false} SwapIff<T>(u: seq<T>, a: seq<T>, b: seq<T>, x: seq<T>, y: seq<T>)
    requires |x| == |y|
    ensures u + a + b + x == u + b + a + y <==> a + b == b + a && x == y
  {
    var s, t := u + a + b + x, u + b + a + y;
    var i, j := |u|, |u| + |a| + |b|;
    assert s[i..j] == a + b && t[i..j] == b + a && s[j..] == x && t[j..] == y;
    if a + b == b + a && x == y {
      assert s == u + (a + b) + x && t == u + (b + a) + y;
    }
  }

  lemma {:induction false} LinesCounted(ms: seq<Message>)
    ensures |AssistantLines(Normalize(ms))| == |AssistantLines(ms)|
  {
    NormalizeKeepsLines(ms);
    assert |multiset(AssistantLines(Normalize(ms)))| == |AssistantLines(Normalize(ms))|;
    assert |multiset(AssistantLines(ms))| == |AssistantLines(ms)|;
  }

  /** Their order is kept exactly when the absorbed lines commute with those they overtake, at every anchor. */
  lemma {:induction false} NormalizeKeepsLineOrder(ms: seq<Message>)
    ensures AssistantLines(Normalize(ms)) == AssistantLines(ms) <==> LinesCommute(ms)
    decreases |ms|
  {
    hide Absorb, ContentLines, LinesOfAll, LinesAfterTarget, LinesUpToTarget, IdSet, Merged;
    if ms == [] {
    } else if !IsAnchor(ms[0]) {
      NormalizeKeepsLineOrder(ms[1..]);
      assert Normalize(ms)[1..] == Normalize(ms[1..]);
      PrefixIff(if ms[0].role.Assistant? then ContentLines(ms[0].content) else [],
        AssistantLines(Normalize(ms[1..])), AssistantLines(ms[1..]));
    } else {
      var w := Absorb(IdSet(ms[0].toolCalls), ms[1..]);
      AbsorbShrinks(IdSet(ms[0].toolCalls), ms[1..]);
      NormalizeKeepsLineOrder(w.rest);
      LinesCounted(w.rest);
      SegmentKeepsLines(ms[0], ms[1..], w);
      SwapIff(LinesUpToTarget(ms[0].content), LinesOfAll(w.texts), LinesAfterTarget(ms[0].content),
        AssistantLines(Normalize(w.rest)), AssistantLines(w.rest));
    }
  }

  lemma {:induction false} PrefixIff<T>(u: seq<T>, x: seq<T>, y: seq<T>)
    ensures u + x == u + y <==> x == y
  {
    assert (u + x)[|u|..] == x && (u + y)[|u|..] == y;
  }

  /** So it is kept when no anchor has text behind the block the preambles go into. */
  lemma {:induction false} NoTextToOvertake(ms: seq<Message>)
    requires forall m | m in ms && IsAnchor(m) :: LinesAfterTarget(m.content) == []
    ensures LinesCommute(ms)
    decreases |ms|
  {
    hide Absorb, LinesOfAll, LinesAfterTarget, IdSet;
    if ms == [] {
    } else if !IsAnchor(ms[0]) {
      NoTextToOvertake(ms[1..]);
    } else {
      var w := Absorb(IdSet(ms[0].toolCalls), ms[1..]);
      AbsorbShrinks(IdSet(ms[0].toolCalls), ms[1..]);
      AbsorbRestIsSuffix(IdSet(ms[0].toolCalls), ms[1..]);
      NoTextToOvertake(w.rest);
      assert LinesOfAll(w.texts) + [] == LinesOfAll(w.texts) == [] + LinesOfAll(w.texts);
    }
  }

  lemma {:induction false} AbsorbRestIsSuffix(pending: set<string>, ms: seq<Message>)
    ensures forall m | m in Absorb(pending, ms).rest :: m in ms
    decreases |ms|
  {
    if ms == [] || pending == {} {
    } else if ms[0].role.Assistant? {
      AbsorbRestIsSuffix(pending + IdSet(ms[0].toolCalls), ms[1..]);
    } else if ms[0].role.Tool? && ms[0].toolCallId in pending {
      AbsorbRestIsSuffix(pending - {ms[0].toolCallId}, ms[1..]);
    }
  }

  lemma {:induction false} LineOfChar(c: char)
    requires c != '\n'
    ensures Lines([c]) == [[c]]
  {
    var s := [c];
    assert s[1..] == "" && "" + [s[0]] == s;
    assert LinesFrom("", s) == LinesFrom(s, "");
  }

  /** A walk that meets one preamble and then the end of the history. */
  lemma {:induction false} OneAbsorbed(text: string)
    requires text != ""
    ensures Absorb({"x"}, [Says([Plain(text)], [])]) == Walk([], [text], [], {"x"}, [])
  {
    var p := Plain(text);
    var history := [Says([p], [])];
    assert {"x"} + IdSet([]) == {"x"} && history[1..] == [];
    assert Absorb({"x"}, history[1..]) == Walk([], [], [], {"x"}, []);
    assert Texts([p]) == [text] + Texts([]);
  }

  /** Texts are joined whole, in order, with one blank line between each two. */
  lemma {:induction false} JoinedWhole(a: seq<string>, b: seq<string>)
    requires a != [] && b != []
    ensures Join(a + b) == Join(a) + "\n\n" + Join(b) && Join([a[0]]) == a[0]
    decreases |a|
  {
    assert (a + b)[0] == a[0] && (a + b)[1..] == a[1..] + b;
    if |a| == 1 {
      assert a[1..] + b == b;
    } else {
      JoinedWhole(a[1..], b);
    }
  }

  /** The order of all text is not kept in general: the preamble overtakes the anchor's second block. */
  lemma {:induction false} TextOrderCanChange()
    ensures var call := ToolCall("x", "f", "{}");
      var ms := [Says([Plain("a"), Plain("b")], [call]), Says([Plain("p")], [])];
      AssistantLines(ms) == ["a", "b", "p"] && AssistantLines(Normalize(ms)) == ["a", "p", "b"]
  {
    hide *;
    OvertakenBlock(Says([Plain("a"), Plain("b")], [ToolCall("x", "f", "{}")]), Says([Plain("p")], []));
  }

  lemma {:induction false} OvertakenBlock(anchor: Message, preamble: Message)
    requires anchor == Says([Plain("a"), Plain("b")], [ToolCall("x", "f", "{}")]) && preamble == Says([Plain("p")], [])
    ensures AssistantLines([anchor, preamble]) == ["a", "b", "p"]
    ensures AssistantLines(Normalize([anchor, preamble])) == ["a", "p", "b"]
  {
    hide LinesFrom, Lines, Absorb, Normalize, AssistantLines, LinesUpToTarget, LinesAfterTarget, LinesOfAll;
    assert IdSet(anchor.toolCalls) == {"x"};
    hide IdSet;
    OneAbsorbed("p");
    LinesOfPair(Plain("a"), Plain("b"));
    LineOfChar('p');
    LinesOfOne("p");
    assert [anchor] + [preamble] == [anchor, preamble];
    OneSegment(anchor, [preamble]);
  }

  lemma {:induction false} LinesOfOne(text: string)
    ensures LinesOfAll([text]) == Lines(text)
  {
    assert LinesOfAll([text]) == Lines(text) + LinesOfAll([text][1..]);
  }

  lemma {:induction false} LinesOfPair(a: ContentBlock, b: ContentBlock)
    requires a == Plain("a") && b == Plain("b")
    ensures LinesUpToTarget([a, b]) == ["a"] && LinesAfterTarget([a, b]) == ["b"]
  {
    hide Lines;
    LineOfChar('a');
    LineOfChar('b');
    assert [a, b][1..] == [b] && ContentLines([b]) == Lines("b") + ContentLines([]);
  }

  /** A history of one segment, before and after. */
  lemma {:induction false} OneSegment(anchor: Message, ms: seq<Message>)
    requires IsAnchor(anchor) && Absorb(IdSet(anchor.toolCalls), ms).rest == []
    ensures var texts := Absorb(IdSet(anchor.toolCalls), ms).texts;
      && AssistantLines([anchor] + ms)
        == LinesUpToTarget(anchor.content) + LinesAfterTarget(anchor.content) + LinesOfAll(texts)
      && AssistantLines(Normalize([anchor] + ms))
        == LinesUpToTarget(anchor.content) + LinesOfAll(texts) + LinesAfterTarget(anchor.content)
  {
    hide Absorb, IdSet, ContentLines, LinesUpToTarget, LinesAfterTarget, LinesOfAll;
    assert ([anchor] + ms)[1..] == ms;
    NormalizeAnchor(anchor, ms);
    assert Normalize([]) == [] && AssistantLines([]) == [];
    hide AssistantLines, Normalize;
    SegmentKeepsLines(anchor, ms, Absorb(IdSet(anchor.toolCalls), ms));
  }

  // ---------------------------------------------------------------------------------------------
  // Where absorbed text goes
  // ---------------------------------------------------------------------------------------------

  /**
   * A segment: the anchor, the stretch its walk takes, the rest.  All tool calls of the stretch move into the
   * anchor, its replies follow the anchor, and all its texts, joined in order, end one block of the anchor's
   * content - the first plain text block or a new last one; no other block changes.  The stretch goes on for as
   * long as calls are open, over assistants and replies to open calls, and no further.
   */
  lemma {:induction false} SegmentKeepsTexts(ms: seq<Message>)
    returns (taken: seq<Message>, rest: seq<Message>, merged: Message,
      before: seq<ContentBlock>, b: ContentBlock, after: seq<ContentBlock>)
    requires ms != [] && IsAnchor(ms[0])
    ensures ms == [ms[0]] + taken + rest && (forall m | m in taken :: m.role.Assistant? || m.role.Tool?)
    ensures forall k | 0 <= k < |taken| :: GoesOn([ms[0]] + taken[..k], taken[k])
    ensures rest == [] || !GoesOn([ms[0]] + taken, rest[0])
    ensures Normalize(ms) == [merged] + NonAssistants(taken) + Normalize(rest)
    ensures merged == ms[0].(toolCalls := ms[0].toolCalls + AssistantCalls(taken), content := merged.content)
    ensures TextsOf(taken) == [] ==> merged.content == ms[0].content
    ensures TextsOf(taken) != [] ==>
      && merged.content == before + [b] + after
      && !(exists p | p in before :: IsPlainText(p))
      && if before == ms[0].content then after == [] && b == ContentBlock(Text, Join(TextsOf(taken)), None, "")
         else exists own | IsPlainText(own) ::
           && ms[0].content == before + [own] + after
           && b == own.(text := (if own.text == "" then "" else own.text + "\n\n") + Join(TextsOf(taken)))
  {
    hide Absorb, Normalize, MergeTexts, Join, IdSet, TextsOf, IsPlainText, GoesOn, NonAssistants, AssistantCalls;
    var w;
    taken, rest, w := SegmentTaken(ms);
    merged := Merged(ms[0], w);
    before, b, after := MergedBlock(ms[0].content, w.texts);
  }

  /** What the walk takes. */
  lemma {:induction false} SegmentTaken(ms: seq<Message>)
    returns (taken: seq<Message>, rest: seq<Message>, w: Walk)
    requires ms != [] && IsAnchor(ms[0])
    ensures ms == [ms[0]] + taken + rest && (forall m | m in taken :: m.role.Assistant? || m.role.Tool?)
    ensures forall k | 0 <= k < |taken| :: GoesOn([ms[0]] + taken[..k], taken[k])
    ensures rest == [] || !GoesOn([ms[0]] + taken, rest[0])
    ensures Normalize(ms) == [Merged(ms[0], w)] + NonAssistants(taken) + Normalize(rest)
    ensures w.texts == TextsOf(taken) && w.calls == AssistantCalls(taken)
  {
    hide Absorb, Normalize, IdSet, TextsOf, GoesOn, AllGoOn, Merged, Open, NonAssistants, AssistantCalls;
    var anchor := ms[0];
    w := Absorb(IdSet(anchor.toolCalls), ms[1..]);
    taken := AbsorbTakes(IdSet(anchor.toolCalls), ms[1..]);
    rest := w.rest;
    OpenAtAnchor(anchor);
    AbsorbGoesOn([anchor], IdSet(anchor.toolCalls), ms[1..], taken);
    EachGoesOn([anchor], taken);
    assert [anchor] + ms[1..] == ms;
    NormalizeAnchor(anchor, ms[1..]);
  }

  /** Where the texts go. */
  lemma {:induction false} MergedBlock(content: seq<ContentBlock>, texts: seq<string>)
    returns (before: seq<ContentBlock>, b: ContentBlock, after: seq<ContentBlock>)
    ensures texts == [] ==> MergeTexts(content, texts) == content
    ensures texts != [] ==>
      && MergeTexts(content, texts) == before + [b] + after
      && !(exists p | p in before :: IsPlainText(p))
      && if before == content then after == [] && b == ContentBlock(Text, Join(texts), None, "")
         else exists own | IsPlainText(own) ::
           && content == before + [own] + after
           && b == own.(text := (if own.text == "" then "" else own.text + "\n\n") + Join(texts))
  {
    hide MergeTexts, Join;
    before, after, b := [], [], ContentBlock(Text, "", None, "");
    if texts == [] {
      NothingMerged(content);
    } else {
      var k: nat;
      k, before, after, b := MergeTouchesOneBlock(content, texts);
      if k < |content| {
        assert before != content && IsPlainText(content[k]);
      }
    }
  }

  /** A call of one of the messages that no later one is a reply to. */
  ghost predicate Open(seen: seq<Message>, id: string) {
    exists p | 0 <= p < |seen| ::
      && seen[p].role.Assistant? && (exists c :: c in seen[p].toolCalls && c.id == id)
      && forall q | p < q < |seen| :: !(seen[q].role.Tool? && seen[q].toolCallId == id)
  }

  /** Calls are open, and the next message is an assistant's or a reply to one of them. */
  ghost predicate GoesOn(seen: seq<Message>, m: Message) {
    (exists id :: Open(seen, id)) && (m.role.Assistant? || (m.role.Tool? && Open(seen, m.toolCallId)))
  }

  lemma {:induction false} OpenAtAnchor(anchor: Message)
    requires IsAnchor(anchor)
    ensures forall id :: Open([anchor], id) <==> id in IdSet(anchor.toolCalls)
  {
    assert [anchor][0] == anchor;
  }

  lemma {:induction false} OpenMore(seen: seq<Message>, m: Message, id: string)
    ensures Open(seen + [m], id)
      <==> (m.role.Assistant? && id in IdSet(m.toolCalls)) || (Open(seen, id) && !(m.role.Tool? && m.toolCallId == id))
  {
    var more, n := seen + [m], |seen|;
    assert more[n] == m && forall p | 0 <= p < n :: more[p] == seen[p];
    if Open(seen, id) && !(m.role.Tool? && m.toolCallId == id) {
      var p :| 0 <= p < n && seen[p].role.Assistant? && (exists c :: c in seen[p].toolCalls && c.id == id)
        && forall q | p < q < n :: !(seen[q].role.Tool? && seen[q].toolCallId == id);
      assert more[p].role.Assistant? && forall q | p < q < |more| :: !(more[q].role.Tool? && more[q].toolCallId == id);
    }
  }

  ghost predicate AllGoOn(seen: seq<Message>, taken: seq<Message>)
    decreases |taken|
  {
    taken == [] || (GoesOn(seen, taken[0]) && AllGoOn(seen + [taken[0]], taken[1..]))
  }

  lemma {:induction false} EachGoesOn(seen: seq<Message>, taken: seq<Message>)
    requires AllGoOn(seen, taken)
    ensures forall k | 0 <= k < |taken| :: GoesOn(seen + taken[..k], taken[k])
    decreases |taken|
  {
    hide GoesOn;
    if taken != [] {
      EachGoesOn(seen + [taken[0]], taken[1..]);
      assert seen + taken[..0] == seen;
      forall k | 0 < k < |taken|
        ensures GoesOn(seen + taken[..k], taken[k])
      {
        assert seen + taken[..k] == (seen + [taken[0]]) + taken[1..][..k - 1] && taken[k] == taken[1..][k - 1];
      }
    }
  }

  /** The walk takes exactly the messages with which it goes on. */
  lemma {:induction false} AbsorbGoesOn(seen: seq<Message>, pending: set<string>, ms: seq<Message>, taken: seq<Message>)
    requires forall id :: Open(seen, id) <==> id in pending
    requires ms == taken + Absorb(pending, ms).rest
    ensures AllGoOn(seen, taken)
    ensures var rest := Absorb(pending, ms).rest; rest == [] || !GoesOn(seen + taken, rest[0])
    decreases |ms|
  {
    hide Open, IdSet;
    if ms == [] || pending == {} || !(ms[0].role.Assistant? || (ms[0].role.Tool? && ms[0].toolCallId in pending)) {
      assert taken == [] && seen + [] == seen;
    } else {
      var m, rest := ms[0], Absorb(pending, ms).rest;
      var next := if m.role.Assistant? then pending + IdSet(m.toolCalls) else pending - {m.toolCallId};
      assert rest == Absorb(next, ms[1..]).rest;
      assert GoesOn(seen, m);
      hide Absorb, GoesOn;
      forall id
        ensures Open(seen + [m], id) <==> id in next
      {
        OpenMore(seen, m, id);
      }
      AbsorbRest(next, ms[1..]);
      assert taken[0] == m && ms[1..] == taken[1..] + rest;
      AbsorbGoesOn(seen + [m], next, ms[1..], taken[1..]);
      assert seen + taken == (seen + [m]) + taken[1..];
    }
  }

  lemma {:induction false} NothingMerged(content: seq<ContentBlock>)
    ensures MergeTexts(content, []) == content
  {
  }

  // ---------------------------------------------------------------------------------------------
  // Adjacency
  // ---------------------------------------------------------------------------------------------

  function CallIds(calls: seq<ToolCall>): seq<string> {
    if calls == [] then [] else [calls[0].id] + CallIds(calls[1..])
  }

  /** The messages in front of `rest` are tool replies, exactly one for each of the calls. */
  ghost predicate Answered(calls: seq<ToolCall>, rest: seq<Message>) {
    && |calls| <= |rest|
    && AllTools(rest[..|calls|])
    && multiset(ReplyIds(rest[..|calls|])) == multiset(CallIds(calls))
  }

  /** The order that OpenAI Chat Completions asks for. */
  ghost predicate Adjacent(ms: seq<Message>) {
    ms != [] ==> (IsAnchor(ms[0]) ==> Answered(ms[0].toolCalls, ms[1..])) && Adjacent(ms[1..])
  }

  predicate Fresh(open: set<string>, calls: seq<ToolCall>)
    decreases |calls|
  {
    calls == [] || (calls[0].id !in open && Fresh(open + {calls[0].id}, calls[1..]))
  }

  /**
   * The one-pass bracket check on an unnormalised history: while calls are open only assistants and
   * replies to open calls occur, no open call is made again, and in the end none is open.
   */
  predicate Closed(open: set<string>, ms: seq<Message>)
    decreases |ms|
  {
    if ms == [] then open == {}
    else if ms[0].role.Assistant? then
      Fresh(open, ms[0].toolCalls) && Closed(open + IdSet(ms[0].toolCalls), ms[1..])
    else if ms[0].role.Tool? && ms[0].toolCallId in open then Closed(open - {ms[0].toolCallId}, ms[1..])
    else open == {} && Closed(open, ms[1..])
  }

  /** Ids and open calls balance: every id is either answered once or still open. */
  ghost predicate Balanced(open: set<string>, w: Walk) {
    multiset(ReplyIds(w.replies)) + multiset(w.unanswered) == multiset(open) + multiset(CallIds(w.calls))
  }

  lemma {:induction false} CallIdsAppend(a: seq<ToolCall>, b: seq<ToolCall>)
    ensures CallIds(a + b) == CallIds(a) + CallIds(b)
  {
    if a == [] {
      assert a + b == b;
    } else {
      assert (a + b)[1..] == a[1..] + b;
      CallIdsAppend(a[1..], b);
    }
  }

  lemma {:induction false} FreshIds(open: set<string>, calls: seq<ToolCall>)
    requires Fresh(open, calls)
    ensures multiset(open) + multiset(CallIds(calls)) == multiset(open + IdSet(calls))
    decreases |calls|
  {
    if calls == [] {
      assert open + IdSet(calls) == open;
    } else {
      FreshIds(open + {calls[0].id}, calls[1..]);
      assert multiset(open + {calls[0].id}) == multiset(open) + multiset{calls[0].id};
      assert open + IdSet(calls) == open + {calls[0].id} + IdSet(calls[1..]);
    }
  }

  lemma {:induction false} FreshAppend(open: set<string>, a: seq<ToolCall>, b: seq<ToolCall>)
    ensures Fresh(open, a + b) <==> Fresh(open, a) && Fresh(open + IdSet(a), b)
    decreases |a|
  {
    if a == [] {
      assert a + b == b && open + IdSet(a) == open;
    } else {
      assert (a + b)[1..] == a[1..] + b;
      FreshAppend(open + {a[0].id}, a[1..], b);
      assert open + {a[0].id} + IdSet(a[1..]) == open + IdSet(a);
    }
  }

  lemma {:induction false} FreshMonotone(small: set<string>, open: set<string>, calls: seq<ToolCall>)
    requires small <= open && Fresh(open, calls)
    ensures Fresh(small, calls)
    decreases |calls|
  {
    if calls != [] {
      FreshMonotone(small + {calls[0].id}, open + {calls[0].id}, calls[1..]);
    }
  }

  lemma {:induction false} BalancedBehindCalls(open: set<string>, m: Message, w: Walk)
    requires Fresh(open, m.toolCalls) && Balanced(open + IdSet(m.toolCalls), w)
    ensures Balanced(open, w.(calls := m.toolCalls + w.calls, texts := Texts(m.content) + w.texts))
  {
    FreshIds(open, m.toolCalls);
    CallIdsAppend(m.toolCalls, w.calls);
  }

  lemma {:induction false} BalancedBehindReply(open: set<string>, m: Message, w: Walk)
    requires m.toolCallId in open && Balanced(open - {m.toolCallId}, w)
    ensures Balanced(open, w.(replies := [m] + w.replies))
  {
    var id := m.toolCallId;
    assert multiset(open) == multiset(open - {id}) + multiset{id};
    ReplyIdsAppend([m], w.replies);
    assert ReplyIds([m]) == [id];
    assert multiset(ReplyIds([m] + w.replies)) == multiset{id} + multiset(ReplyIds(w.replies));
    assert multiset{id} + multiset(ReplyIds(w.replies)) + multiset(w.unanswered)
      == multiset{id} + (multiset(open - {id}) + multiset(CallIds(w.calls)));
  }

  /** A closed history leaves a walk with every call answered once and a closed rest. */
  lemma {:induction false} ClosedWalk(open: set<string>, ms: seq<Message>)
    requires Closed(open, ms)
    ensures var w := Absorb(open, ms);
      w.unanswered == {} && Closed({}, w.rest) && Balanced(open, w)
    decreases |ms|
  {
    if ms == [] || open == {} {
    } else if ms[0].role.Assistant? {
      ClosedWalk(open + IdSet(ms[0].toolCalls), ms[1..]);
      BalancedBehindCalls(open, ms[0], Absorb(open + IdSet(ms[0].toolCalls), ms[1..]));
    } else {
      ClosedWalk(open - {ms[0].toolCallId}, ms[1..]);
      BalancedBehindReply(open, ms[0], Absorb(open - {ms[0].toolCallId}, ms[1..]));
    }
  }

  /** With call ids never reused, a walk balances, and a complete one starts a closed history. */
  lemma {:induction false} UniqueWalk(open: set<string>, ms: seq<Message>)
    requires Fresh(open, AssistantCalls(ms))
    ensures var w := Absorb(open, ms);
      && Balanced(open, w)
      && Fresh({}, AssistantCalls(w.rest))
      && (w.unanswered == {} && Closed({}, w.rest) ==> Closed(open, ms))
    decreases |ms|
  {
    if ms == [] || open == {} {
      FreshMonotone({}, open, AssistantCalls(ms));
    } else if ms[0].role.Assistant? {
      FreshAppend(open, ms[0].toolCalls, AssistantCalls(ms[1..]));
      UniqueWalk(open + IdSet(ms[0].toolCalls), ms[1..]);
      BalancedBehindCalls(open, ms[0], Absorb(open + IdSet(ms[0].toolCalls), ms[1..]));
    } else if ms[0].role.Tool? && ms[0].toolCallId in open {
      assert AssistantCalls(ms) == AssistantCalls(ms[1..]);
      FreshMonotone(open - {ms[0].toolCallId}, open, AssistantCalls(ms[1..]));
      UniqueWalk(open - {ms[0].toolCallId}, ms[1..]);
      BalancedBehindReply(open, ms[0], Absorb(open - {ms[0].toolCallId}, ms[1..]));
    } else {
      FreshMonotone({}, open, AssistantCalls(ms));
    }
  }

  lemma {:induction false} AdjacentSkipsTools(tools: seq<Message>, tail: seq<Message>)
    requires AllTools(tools)
    ensures Adjacent(tools + tail) <==> Adjacent(tail)
  {
    if tools == [] {
      assert tools + tail == tail;
    } else {
      assert (tools + tail)[1..] == tools[1..] + tail;
      AdjacentSkipsTools(tools[1..], tail);
    }
  }

  lemma {:induction false} ReplyIdsAppend(a: seq<Message>, b: seq<Message>)
    ensures ReplyIds(a + b) == ReplyIds(a) + ReplyIds(b)
    ensures |ReplyIds(a)| == |a|
  {
    if a == [] {
      assert a + b == b;
    } else {
      assert (a + b)[1..] == a[1..] + b;
      ReplyIdsAppend(a[1..], b);
    }
  }

  lemma {:induction false} CallIdsLength(calls: seq<ToolCall>)
    ensures |CallIds(calls)| == |calls|
  {
    if calls != [] {
      CallIdsLength(calls[1..]);
    }
  }

  lemma {:induction false} BalancedLength(calls: seq<ToolCall>, replies: seq<Message>, unanswered: set<string>)
    requires multiset(ReplyIds(replies)) + multiset(unanswered) == multiset(CallIds(calls))
    ensures |replies| + |unanswered| == |calls|
  {
    CallIdsLength(calls);
    ReplyIdsAppend(replies, []);
    assert |multiset(ReplyIds(replies))| == |replies|;
    assert |multiset(unanswered)| == |unanswered|;
    assert |multiset(CallIds(calls))| == |calls|;
  }

  lemma {:induction false} Cancel<T>(a: multiset<T>, b: multiset<T>, c: multiset<T>)
    requires a + b == a + c
    ensures b == c
  {
    forall x
      ensures b[x] == c[x]
    {
      assert (a + b)[x] == (a + c)[x];
    }
  }

  /** Behind the replies of an answered segment comes a reply to a call that is still open. */
  lemma {:induction false} NextReplyIsOpen(calls: seq<ToolCall>, replies: seq<Message>, unanswered: set<string>,
                                           tail: seq<Message>)
    requires multiset(ReplyIds(replies)) + multiset(unanswered) == multiset(CallIds(calls))
    requires Answered(calls, replies + tail) && unanswered != {}
    ensures tail != [] && tail[0].role.Tool? && tail[0].toolCallId in unanswered
  {
    BalancedLength(calls, replies, unanswered);
    var more := tail[..|unanswered|];
    var head := (replies + tail)[..|calls|];
    assert head == replies + more;
    assert head[|replies|] == tail[0];
    ReplyIdsAppend(replies, more);
    assert multiset(ReplyIds(head)) == multiset(ReplyIds(replies)) + multiset(ReplyIds(more));
    Cancel(multiset(ReplyIds(replies)), multiset(ReplyIds(more)), multiset(unanswered));
    assert ReplyIds(more)[0] == tail[0].toolCallId;
    assert tail[0].toolCallId in multiset(ReplyIds(more));
  }

  /** A balanced segment is answered exactly when its walk left nothing open. */
  lemma {:induction false} SegmentAnswered(calls: seq<ToolCall>, replies: seq<Message>, unanswered: set<string>,
                                           tail: seq<Message>)
    requires AllTools(replies) && Blocked(unanswered, tail)
    requires multiset(ReplyIds(replies)) + multiset(unanswered) == multiset(CallIds(calls))
    ensures Answered(calls, replies + tail) <==> unanswered == {}
  {
    BalancedLength(calls, replies, unanswered);
    if unanswered == {} {
      assert (replies + tail)[..|calls|] == replies;
    } else if Answered(calls, replies + tail) {
      NextReplyIsOpen(calls, replies, unanswered, tail);
    }
  }

  lemma {:induction false} AdjacentBehind(a: Message, replies: seq<Message>, tail: seq<Message>)
    requires IsAnchor(a) && AllTools(replies)
    ensures Adjacent([a] + replies + tail) <==> Answered(a.toolCalls, replies + tail) && Adjacent(tail)
  {
    assert ([a] + replies + tail)[1..] == replies + tail;
    AdjacentSkipsTools(replies, tail);
  }

  lemma {:induction false} BalancedCalls(calls: seq<ToolCall>, w: Walk)
    requires Fresh({}, calls) && Balanced(IdSet(calls), w)
    ensures multiset(ReplyIds(w.replies)) + multiset(w.unanswered) == multiset(CallIds(calls + w.calls))
  {
    FreshIds({}, calls);
    assert {} + IdSet(calls) == IdSet(calls);
    CallIdsAppend(calls, w.calls);
  }

  lemma {:induction false} AdjacentSegment(a: Message, w: Walk, tail: seq<Message>)
    requires IsAnchor(a) && AllTools(w.replies) && Blocked(w.unanswered, tail)
    requires multiset(ReplyIds(w.replies)) + multiset(w.unanswered) == multiset(CallIds(a.toolCalls))
    ensures Adjacent([a] + w.replies + tail) <==> w.unanswered == {} && Adjacent(tail)
  {
    SegmentAnswered(a.toolCalls, w.replies, w.unanswered, tail);
    AdjacentBehind(a, w.replies, tail);
  }

  /** The segment an anchor starts comes out adjacent when its walk balances and leaves nothing open. */
  lemma {:induction false} AdjacentNormalized(ms: seq<Message>, w: Walk)
    requires ms != [] && IsAnchor(ms[0]) && w == Absorb(IdSet(ms[0].toolCalls), ms[1..])
    requires Fresh({}, ms[0].toolCalls) && Balanced(IdSet(ms[0].toolCalls), w)
    ensures Adjacent(Normalize(ms)) <==> w.unanswered == {} && Adjacent(Normalize(w.rest))
  {
    AbsorbStops(IdSet(ms[0].toolCalls), ms[1..]);
    NormalizeKeepsBlocked(w.unanswered, w.rest);
    BalancedCalls(ms[0].toolCalls, w);
    AdjacentSegment(Merged(ms[0], w), w, Normalize(w.rest));
    NormalizeAnchor(ms[0], ms[1..]);
    assert [ms[0]] + ms[1..] == ms;
  }

  /** A closed history becomes adjacent, whatever its ids. */
  lemma {:induction false} ClosedBecomesAdjacent(ms: seq<Message>)
    requires Closed({}, ms)
    ensures Adjacent(Normalize(ms))
    decreases |ms|
  {
    if ms == [] {
    } else if !IsAnchor(ms[0]) {
      assert {} + IdSet(ms[0].toolCalls) == {} || !ms[0].role.Assistant?;
      ClosedBecomesAdjacent(ms[1..]);
      assert Normalize(ms)[1..] == Normalize(ms[1..]);
    } else {
      var ids := IdSet(ms[0].toolCalls);
      assert {} + ids == ids;
      var w := Absorb(ids, ms[1..]);
      AbsorbShrinks(ids, ms[1..]);
      ClosedWalk(ids, ms[1..]);
      ClosedBecomesAdjacent(w.rest);
      AdjacentNormalized(ms, w);
    }
  }

  /** With call ids never reused, being closed is exactly what the adjacency of the output needs. */
  lemma {:induction false} AdjacentIffClosed(ms: seq<Message>)
    requires Fresh({}, AssistantCalls(ms))
    ensures Adjacent(Normalize(ms)) <==> Closed({}, ms)
    decreases |ms|
  {
    if Closed({}, ms) {
      ClosedBecomesAdjacent(ms);
    } else if ms != [] {
      FreshAppend({}, if ms[0].role.Assistant? then ms[0].toolCalls else [], AssistantCalls(ms[1..]));
      if !IsAnchor(ms[0]) {
        assert ms[0].role.Assistant? ==> {} + IdSet(ms[0].toolCalls) == {};
        FreshMonotone({}, {} + IdSet(if ms[0].role.Assistant? then ms[0].toolCalls else []), AssistantCalls(ms[1..]));
        AdjacentIffClosed(ms[1..]);
        assert Normalize(ms)[1..] == Normalize(ms[1..]);
      } else {
        var ids := IdSet(ms[0].toolCalls);
        assert {} + ids == ids;
        var w := Absorb(ids, ms[1..]);
        AbsorbShrinks(ids, ms[1..]);
        UniqueWalk(ids, ms[1..]);
        AdjacentIffClosed(w.rest);
        AdjacentNormalized(ms, w);
      }
    }
  }

  lemma {:induction false} ReplyIdsCover(calls: seq<ToolCall>, replies: seq<Message>)
    requires multiset(ReplyIds(replies)) == multiset(CallIds(calls))
    ensures Remaining(IdSet(calls), replies) == {}
  {
    forall id | id in IdSet(calls)
      ensures id in ReplyIds(replies)
    {
      IdInCallIds(calls, id);
      assert id in multiset(CallIds(calls));
    }
  }

  lemma {:induction false} IdInCallIds(calls: seq<ToolCall>, id: string)
    requires id in IdSet(calls)
    ensures id in CallIds(calls)
  {
    if calls[0].id != id {
      assert id in IdSet(calls[1..]);
      IdInCallIds(calls[1..], id);
    }
  }

  /** An already adjacent history passes through unchanged, down to every content block. */
  lemma {:induction false} AdjacentIsUnchanged(ms: seq<Message>)
    requires Adjacent(ms)
    ensures Normalize(ms) == ms
  {
    hide Absorb, Join, AppendJoined, ReplyIds, CallIds;
    if ms == [] {
    } else if !IsAnchor(ms[0]) {
      AdjacentIsUnchanged(ms[1..]);
    } else {
      var a, n := ms[0], |ms[0].toolCalls|;
      var replies, tail := ms[1..][..n], ms[1..][n..];
      assert ms[1..] == replies + tail;
      ReplyIdsCover(a.toolCalls, replies);
      AdjacentSkipsTools(replies, tail);
      AdjacentIsUnchanged(tail);
      NormalizeSegmentAgain(a, replies, tail);
      assert ms == [a] + replies + tail;
    }
  }

  /**
   * Preamble text goes into one plain text block, behind the text it already has, and no other block
   * changes; only an anchor without such a block gets a new one, at the end.
   */
  lemma {:induction false} MergeTouchesOneBlock(content: seq<ContentBlock>, texts: seq<string>)
    returns (k: nat, before: seq<ContentBlock>, after: seq<ContentBlock>, b: ContentBlock)
    requires texts != []
    ensures k == |before| <= |content| && !exists p | p in before :: p.kind.Text? && p.rawJson.None?
    ensures k == |content| ==> content == before && after == [] && b == ContentBlock(Text, Join(texts), None, "")
    ensures k < |content| ==> content == before + [content[k]] + after
    ensures k < |content| ==> content[k].kind.Text? && content[k].rawJson.None?
    ensures k < |content| ==>
      b == content[k].(text := (if content[k].text == "" then "" else content[k].text + "\n\n") + Join(texts))
    ensures MergeTexts(content, texts) == before + [b] + after
  {
    hide Join, AppendJoined;
    if HasPlainText(content) {
      k := FirstPlainText(content);
      AppendJoinedAt(content, Join(texts), k);
      before, after, b := content[..k], content[k + 1..], Extended(content[k], Join(texts));
    } else {
      AppendJoinedNowhere(content, Join(texts));
      k, before, after, b := |content|, content, [], ContentBlock(Text, Join(texts), None, "");
    }
  }
}
