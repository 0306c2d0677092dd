/** Messages that carry more than words and calls: reasoning, images, unknown shapes and entries that are no messages. */
module NeutralShapes {
  import opened Texts
  import opened Seqs
  import opened Json
  import opened Printing
  import opened Names
  import opened Neutral
  import opened NeutralWires
  import opened NeutralTalk
  import opened NeutralFourWires

  /** A block that is neither text, thinking, a call nor a result: an image, a document. */
  predicate IsForeign(b: Json) {
    && b.Obj?
    && match Get(b, Lit("type"))
       case Some(Str(k)) =>
         && k != Lit("text") && k != Lit("input_text") && k != Lit("output_text") && k != Lit("thinking")
         && k != Lit("redacted_thinking") && k != Lit("tool_use") && k != Lit("tool_result")
       case _ => true
  }

  lemma ReadForeign(b: Json, parse: Text -> Option<Json>)
    requires IsForeign(b)
    ensures ReadBlock(b, parse) == Blocks([], [], [], true)
  {
    hide Get;
    Spelling();
  }

  lemma {:induction false} ReadAllForeign(bs: seq<Json>, parse: Text -> Option<Json>)
    requires forall b :: b in bs ==> IsForeign(b)
    ensures ReadBlocks(bs, parse) == Blocks([], [], [], bs != [])
  {
    if bs != [] {
      hide ReadBlock, IsForeign;
      ReadForeign(bs[0], parse);
      ReadAllForeign(bs[1..], parse);
    }
  }

  lemma AlonePrepared(m: Json, parse: Text -> Option<Json>)
    requires !SystemMessage(m)
    ensures Project([m], parse) == Flush(Step(Start, m, parse)).turns
  {
    hide Step, SystemMessage;
    NothingElseVanishes([m], parse);
    RunOne(Start, m, parse);
  }

  lemma MessageIsNoSystem(role: Text, content: Json)
    requires role == USER || role == ASSISTANT
    ensures !SystemMessage(Message(role, content))
  {
    FirstField(Message(role, content), role);
  }

  lemma MergedAlone(text: Text)
    ensures Flush(Merge(Start, text, [])).turns ==
            [Turn(Lit("assistant"), Some(text), None, [Frag(Lit("assistant"), text, [])])]
  {
    Spelling();
    var frags := [Frag(ASSISTANT, text, [])];
    assert Merge(Start, text, []) == State([], Some(Pending(text, [], frags))) by {
      var none: seq<Text> := [];
      assert [] + text == text && [] + frags == frags && none + none == none;
    }
    assert [] + [RunTurn(Pending(text, [], frags))] == [RunTurn(Pending(text, [], frags))];
  }

  lemma PushedAlone(t: Turn)
    ensures Flush(Push(Flush(Start), t)).turns == [t] && Flush(Push(Start, t)).turns == [t]
  {
    assert Flush(Start) == Start && [] + [t] == [t];
  }

  function JsonTurn(kind: Text, v: Json): Turn {
    Turn(kind, Some(Neutral.Canon(v)), None, [Frag(kind, Neutral.Canon(v), [])])
  }

  /** What only images say is kept as their sorted JSON. */
  lemma ImagesAlone(bs: seq<Json>, parse: Text -> Option<Json>)
    requires bs != [] && (forall b :: b in bs ==> IsForeign(b))
    ensures Project([Message(Lit("user"), Arr(bs))], parse) == [JsonTurn(Lit("user"), Arr(bs))]
  {
    hide Step, ReadBlocks, IsForeign, SystemMessage, Neutral.Canon, Message, ClientMarker;
    Spelling();
    NamesApart();
    MessageIsNoSystem(USER, Arr(bs));
    AlonePrepared(Message(USER, Arr(bs)), parse);
    StepBlockMessage(Start, USER, bs, parse);
    ReadAllForeign(bs, parse);
    FirstIsObject(bs);
    ArrayIsNoNotice(bs);
  }

  lemma FirstIsObject(bs: seq<Json>)
    requires bs != [] && forall b :: b in bs ==> IsForeign(b)
    ensures bs[0].Obj?
  {
    assert IsForeign(bs[0]);
  }

  lemma ArrayIsNoNotice(bs: seq<Json>)
    requires bs != [] && bs[0].Obj?
    ensures !ClientMarker(Neutral.Canon(Arr(bs)))
  {
    hide Print;
    assert MARKER_OPEN[1] == 109;
    FirstBrace(bs);
  }

  lemma FirstBrace(bs: seq<Json>)
    requires bs != [] && bs[0].Obj?
    ensures |Neutral.Canon(Arr(bs))| > 1 && Neutral.Canon(Arr(bs))[1] == OPEN_OBJECT
  {
    hide JoinMembers, Arrange, PrintMembers;
    var items := PrintItems(bs, Printing.Canon);
    assert |Print(bs[0], Printing.Canon)| > 0 && Print(bs[0], Printing.Canon)[0] == OPEN_OBJECT;
    assert |items| > 0 && items[0] == OPEN_OBJECT;
    assert Neutral.Canon(Arr(bs)) == [OPEN_ARRAY] + items + [CLOSE_ARRAY];
  }

  /** Beside words of the user, images say nothing. */
  lemma ImagesBesideWords(t: Text, bs: seq<Json>, parse: Text -> Option<Json>)
    requires (forall b :: b in bs ==> IsForeign(b)) && t != PLACEHOLDER && !Notice(t)
    ensures Project([Message(Lit("user"), Arr([TextBlock(t)] + bs))], parse) ==
            [Turn(Lit("user"), Some(t), None, [Frag(Lit("user"), t, [])])]
  {
    hide Step, ReadBlocks, ReadBlock, IsForeign, SystemMessage, Message, ClientMarker, Notice, TextBlock;
    Spelling();
    NamesApart();
    PlaceholderIs();
    NoticeIsMarker(t);
    var all := [TextBlock(t)] + bs;
    MessageIsNoSystem(USER, Arr(all));
    AlonePrepared(Message(USER, Arr(all)), parse);
    StepBlockMessage(Start, USER, all, parse);
    ReadMixed(t, bs, parse);
    ConcatTexts(t);
  }

  lemma ReadMixed(t: Text, bs: seq<Json>, parse: Text -> Option<Json>)
    requires (forall b :: b in bs ==> IsForeign(b)) && t != PLACEHOLDER
    ensures ReadBlocks([TextBlock(t)] + bs, parse) == Blocks([t], [], [], bs != [])
  {
    hide ReadBlocks, ReadBlock, IsForeign, TextBlock;
    PlaceholderIs();
    ReadBlocksConcat([TextBlock(t)], bs, parse);
    ReadOne(TextBlock(t), parse);
    ReadTextBlock(t, parse);
    ReadAllForeign(bs, parse);
  }

  /** Beside words of the assistant, the whole content is kept behind a mark. */
  lemma ImagesOfAssistant(t: Text, bs: seq<Json>, parse: Text -> Option<Json>)
    requires bs != [] && (forall b :: b in bs ==> IsForeign(b)) && t != PLACEHOLDER
    ensures var all := Arr([TextBlock(t)] + bs);
      var own := t + ([0] + Lit("foreign:") + Neutral.Canon(all));
      Project([Message(Lit("assistant"), all)], parse) ==
        [Turn(Lit("assistant"), Some(own), None, [Frag(Lit("assistant"), own, [])])]
  {
    hide Step, ReadBlocks, ReadBlock, IsForeign, SystemMessage, Message, TextBlock, Neutral.Canon;
    Spelling();
    NamesApart();
    PlaceholderIs();
    var all := [TextBlock(t)] + bs;
    MessageIsNoSystem(ASSISTANT, Arr(all));
    AlonePrepared(Message(ASSISTANT, Arr(all)), parse);
    StepBlockMessage(Start, ASSISTANT, all, parse);
    ReadMixed(t, bs, parse);
    ConcatTexts(t);
    hide Merge;
    MergedAlone(t + ([0] + Lit("foreign:") + Neutral.Canon(Arr(all))));
  }

  /** Reasoning beside an answer follows it in the same turn. */
  lemma ReasoningFollows(t: Text, reasoning: Text, parse: Text -> Option<Json>)
    ensures var m := Obj([Field(Lit("role"), Str(Lit("assistant"))), Field(Lit("content"), Str(t)),
                          Field(Lit("reasoning_content"), Str(reasoning))]);
      Project([m], parse) ==
        [Turn(Lit("assistant"), Some(t + reasoning), None, [Frag(Lit("assistant"), t + reasoning, [])])]
  {
    hide Get, SystemMessage;
    Spelling();
    NamesApart();
    assert REASONING_CONTENT[0] == 114 && PARTS[0] == 112 && TYPE[0] == 116 && TOOL_CALLS[0] == 116;
    var role, content, more := Str(ASSISTANT), Str(t), Str(reasoning);
    var m := Obj([Field(ROLE, role), Field(CONTENT, content), Field(REASONING_CONTENT, more)]);
    FirstField(m, ASSISTANT);
    AlonePrepared(m, parse);
    Get3(ROLE, role, CONTENT, content, REASONING_CONTENT, more, ROLE);
    Get3(ROLE, role, CONTENT, content, REASONING_CONTENT, more, CONTENT);
    Get3(ROLE, role, CONTENT, content, REASONING_CONTENT, more, REASONING_CONTENT);
    Get3(ROLE, role, CONTENT, content, REASONING_CONTENT, more, PARTS);
    Get3(ROLE, role, CONTENT, content, REASONING_CONTENT, more, TYPE);
    Get3(ROLE, role, CONTENT, content, REASONING_CONTENT, more, TOOL_CALLS);
    hide Merge, Flush;
    MergedAlone(t + reasoning);
  }

  /** A message of no known shape is kept whole, under its role. */
  lemma UnknownShapeIsKept(role: Text, content: Json, parse: Text -> Option<Json>)
    requires role == USER || role == ASSISTANT
    requires content.Obj? || content.Num? || content.Bool?
    ensures Project([Message(role, content)], parse) == [JsonTurn(role, Message(role, content))]
  {
    hide Get, HasParts, IsFunctionCall, IsFunctionOutput, HasToolCalls, SystemMessage, Neutral.Canon;
    Spelling();
    NamesApart();
    MessageShape(role, content);
    MessageIsNoSystem(role, content);
    AlonePrepared(Message(role, content), parse);
    hide Push, Flush;
    PushedAlone(JsonTurn(role, Message(role, content)));
  }

  /** An entry that is no message at all is kept as it is. */
  lemma EntryIsKept(v: Json, parse: Text -> Option<Json>)
    requires !v.Obj? && !v.Arr?
    ensures Project([v], parse) == [JsonTurn(Lit("raw"), v)]
  {
    hide Neutral.Canon;
    AlonePrepared(v, parse);
  }

  /** Thinking blocks, redacted ones too, are read like words. */
  lemma ThinkingIsRead(kind: Text, t: Text, parse: Text -> Option<Json>)
    requires kind == Lit("thinking") || kind == Lit("redacted_thinking")
    requires t != PLACEHOLDER
    ensures Project([Message(Lit("assistant"), Arr([Obj([Field(Lit("type"), Str(kind)), Field(Lit("thinking"), Str(t))])]))],
                    parse)
      == [Turn(Lit("assistant"), Some(t), None, [Frag(Lit("assistant"), t, [])])]
  {
    hide Step, ReadBlocks, ReadBlock, SystemMessage, Message, Get;
    Spelling();
    NamesApart();
    PlaceholderIs();
    var b := Obj([Field(TYPE, Str(kind)), Field(THINKING, Str(t))]);
    MessageIsNoSystem(ASSISTANT, Arr([b]));
    AlonePrepared(Message(ASSISTANT, Arr([b])), parse);
    StepBlockMessage(Start, ASSISTANT, [b], parse);
    ReadOne(b, parse);
    ReadThinkingOf(kind, t, parse);
    ConcatTexts(t);
    hide Merge, Flush;
    MergedAlone(t);
  }

  lemma ReadThinkingOf(kind: Text, t: Text, parse: Text -> Option<Json>)
    requires kind == THINKING || kind == REDACTED_THINKING
    ensures ReadBlock(Obj([Field(TYPE, Str(kind)), Field(THINKING, Str(t))]), parse) ==
      Blocks(if t == USER_IMAGE_PLACEHOLDER then [] else [t], [], [], false)
  {
    hide Get;
    NamesApart();
    assert REDACTED_THINKING[0] == 114 && TOOL_USE[0] == 116 && TOOL_RESULT[0] == 116 && TEXT[0] == 116;
    assert INPUT_TEXT[0] == 105 && OUTPUT_TEXT[0] == 111;
    Get2(TYPE, Str(kind), THINKING, Str(t), TYPE);
    Get2(TYPE, Str(kind), THINKING, Str(t), THINKING);
  }

  function TextBlocks(ts: seq<Text>): seq<Json> {
    if ts == [] then [] else [TextBlock(ts[0])] + TextBlocks(ts[1..])
  }

  lemma {:induction false} BlocksSay(ts: seq<Text>)
    ensures BlocksText(TextBlocks(ts)) == Concat(ts)
  {
    if ts != [] {
      BlocksSay(ts[1..]);
      NamesApart();
      Get2(TYPE, Str(TEXT), TEXT, Str(ts[0]), TYPE);
      Get2(TYPE, Str(TEXT), TEXT, Str(ts[0]), TEXT);
      hide Get;
      assert TextBlocks(ts)[1..] == TextBlocks(ts[1..]);
    }
  }

  /** A tool message of text blocks says them one after the other, the placeholder included. */
  lemma ToolBlocksJoin(id: Text, ts: seq<Text>, parse: Text -> Option<Json>)
    ensures var m := Obj([Field(Lit("role"), Str(Lit("tool"))), Field(Lit("tool_call_id"), Str(id)),
                          Field(Lit("content"), Arr(TextBlocks(ts)))]);
      Project([m], parse) == [Turn(Lit("tool"), Some(Concat(ts)), None, [Frag(Lit("tool"), Concat(ts), [])])]
  {
    hide Get, SystemMessage, TextBlocks, BlocksText, Concat;
    Spelling();
    NamesApart();
    var role, call, content := Str(TOOL), Str(id), Arr(TextBlocks(ts));
    var m := Obj([Field(ROLE, role), Field(TOOL_CALL_ID, call), Field(CONTENT, content)]);
    FirstField(m, TOOL);
    AlonePrepared(m, parse);
    Get3(ROLE, role, TOOL_CALL_ID, call, CONTENT, content, ROLE);
    Get3(ROLE, role, TOOL_CALL_ID, call, CONTENT, content, CONTENT);
    Get3(ROLE, role, TOOL_CALL_ID, call, CONTENT, content, PARTS);
    Get3(ROLE, role, TOOL_CALL_ID, call, CONTENT, content, TYPE);
    BlocksSay(ts);
    hide Push, Flush;
    PushedAlone(TextTurn(TOOL, Concat(ts)));
  }

  /** The output of a local shell call is a tool result like that of a function call. */
  lemma ShellOutputIsRead(id: Text, body: Text, parse: Text -> Option<Json>)
    ensures var m := Obj([Field(Lit("type"), Str(Lit("local_shell_call_output"))), Field(Lit("call_id"), Str(id)),
                          Field(Lit("output"), Str(body))]);
      Project([m], parse) == [Turn(Lit("tool"), Some(body), None, [Frag(Lit("tool"), body, [])])]
  {
    hide Get;
    Spelling();
    NamesApart();
    assert PARTS[0] == 112 && OUTPUT[0] == 111 && TYPE[0] == 116 && ROLE[0] == 114;
    assert LOCAL_SHELL_CALL_OUTPUT[0] == 108 && FUNCTION_CALL[0] == 102;
    var kind, call, out := Str(LOCAL_SHELL_CALL_OUTPUT), Str(id), Str(body);
    var m := Obj([Field(TYPE, kind), Field(Lit("call_id"), call), Field(OUTPUT, out)]);
    Get3(TYPE, kind, Lit("call_id"), call, OUTPUT, out, ROLE);
    Get3(TYPE, kind, Lit("call_id"), call, OUTPUT, out, TYPE);
    Get3(TYPE, kind, Lit("call_id"), call, OUTPUT, out, OUTPUT);
    Get3(TYPE, kind, Lit("call_id"), call, OUTPUT, out, PARTS);
    AlonePrepared(m, parse);
    hide Push, Flush;
    PushedAlone(TextTurn(TOOL, body));
  }

  /** A function output that is missing or null reads as a quoted empty string. */
  lemma MissingOutputIsQuoted(id: Text, parse: Text -> Option<Json>)
    ensures var m := Obj([Field(Lit("type"), Str(Lit("function_call_output"))), Field(Lit("call_id"), Str(id)),
                          Field(Lit("output"), Null)]);
      Project([m], parse) == [JsonTurn(Lit("tool"), Str([]))]
  {
    hide Get, Neutral.Canon;
    Spelling();
    NamesApart();
    assert PARTS[0] == 112 && OUTPUT[0] == 111 && TYPE[0] == 116 && ROLE[0] == 114;
    assert |FUNCTION_CALL| == 13 && |FUNCTION_CALL_OUTPUT| == 20;
    var kind, call := Str(FUNCTION_CALL_OUTPUT), Str(id);
    var m := Obj([Field(TYPE, kind), Field(Lit("call_id"), call), Field(OUTPUT, Null)]);
    Get3(TYPE, kind, Lit("call_id"), call, OUTPUT, Null, ROLE);
    Get3(TYPE, kind, Lit("call_id"), call, OUTPUT, Null, TYPE);
    Get3(TYPE, kind, Lit("call_id"), call, OUTPUT, Null, OUTPUT);
    Get3(TYPE, kind, Lit("call_id"), call, OUTPUT, Null, PARTS);
    AlonePrepared(m, parse);
    hide Push, Flush;
    PushedAlone(JsonTurn(TOOL, Str([])));
  }

  /** A tool call without a name, or with a null one, has the empty name. */
  lemma NamelessCall(args: Json, parse: Text -> Option<Json>)
    ensures var b := Obj([Field(Lit("type"), Str(Lit("tool_use"))), Field(Lit("name"), Null), Field(Lit("input"), args)]);
      ReadBlock(b, parse).calls == [[0] + CanonicalCallArgs(Some(args), parse)]
  {
    hide Get, CanonicalCallArgs;
    Spelling();
    NamesApart();
    Get3(TYPE, Str(TOOL_USE), NAME, Null, INPUT, args, TYPE);
    Get3(TYPE, Str(TOOL_USE), NAME, Null, INPUT, args, NAME);
    Get3(TYPE, Str(TOOL_USE), NAME, Null, INPUT, args, INPUT);
    assert [] + [0] + CanonicalCallArgs(Some(args), parse) == [0] + CanonicalCallArgs(Some(args), parse);
  }
}
