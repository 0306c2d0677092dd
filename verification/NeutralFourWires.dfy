/** One conversation on the four wires, and the turns each of them projects to. */
module NeutralFourWires {
  import opened Texts
  import opened Seqs
  import opened Json
  import opened Printing
  import opened Names
  import opened Neutral
  import opened NeutralWires
  import opened NeutralTalk

  datatype Line = OpenAILine | AnthropicLine | ResponsesLine | GoogleLine

  // ---- the responses and the google renderings ----

  function ResponsesMessage(role: Text, kind: Text, text: Text): Json {
    Obj([Field(Lit("type"), Str(Lit("message"))), Field(Lit("role"), Str(role)),
         Field(Lit("content"), Arr([Obj([Field(Lit("type"), Str(kind)), Field(Lit("text"), Str(text))])]))])
  }

  function FunctionCall(c: Call): Json {
    Obj([Field(Lit("type"), Str(Lit("function_call"))), Field(Lit("call_id"), Str(c.id)),
         Field(Lit("name"), Str(c.name)), Field(Lit("arguments"), Str(Stringify(c.args)))])
  }

  function FunctionOutput(r: ToolReply): Json {
    Obj([Field(Lit("type"), Str(Lit("function_call_output"))), Field(Lit("call_id"), Str(r.id)),
         Field(Lit("output"), Str(r.body))])
  }

  /** responses: text blocks in messages, calls and their outputs as items beside them, no thinking. */
  function ResponsesRender(item: Item): seq<Json> {
    match item
    case Says(t) => [ResponsesMessage(Lit("user"), Lit("input_text"), t)]
    case Answers(t) => [ResponsesMessage(Lit("assistant"), Lit("output_text"), t)]
    case Acts(_, prose, calls) =>
      Optional(prose, t => ResponsesMessage(Lit("assistant"), Lit("output_text"), t)) + MapCalls(calls, FunctionCall)
    case Replies(rs, followUp) =>
      MapReplies(rs, FunctionOutput) + Optional(followUp, t => ResponsesMessage(Lit("user"), Lit("input_text"), t))
  }

  function Contents(role: Text, parts: seq<Json>): Json {
    Obj([Field(Lit("role"), Str(role)), Field(Lit("parts"), Arr(parts))])
  }

  function TextOfPart(t: Text): Json {
    Obj([Field(Lit("text"), Str(t))])
  }

  function CallPart(c: Call): Json {
    Obj([Field(Lit("functionCall"), Obj([Field(Lit("name"), Str(c.name)), Field(Lit("args"), c.args)]))])
  }

  function ResponsePart(r: ToolReply): Json {
    Obj([Field(Lit("functionResponse"),
               Obj([Field(Lit("name"), Str(r.id)), Field(Lit("response"), Obj([Field(Lit("output"), Str(r.body))]))]))])
  }

  function ResponseContents(r: ToolReply): Json {
    Contents(Lit("user"), [ResponsePart(r)])
  }

  /** google: parts, arguments as values, one item per tool result, no thinking. */
  function GoogleRender(item: Item): seq<Json> {
    match item
    case Says(t) => [Contents(Lit("user"), [TextOfPart(t)])]
    case Answers(t) => [Contents(Lit("model"), [TextOfPart(t)])]
    case Acts(_, prose, calls) => [Contents(Lit("model"), Optional(prose, TextOfPart) + MapCalls(calls, CallPart))]
    case Replies(rs, followUp) =>
      MapReplies(rs, ResponseContents) + Optional(followUp, t => Contents(Lit("user"), [TextOfPart(t)]))
  }

  // ---- what each item contributes on each wire ----

  const PLACEHOLDER: Text := Lit("(image omitted: ") + Lit("model does not ") + Lit("support images)")

  function Words(t: Option<Text>): Text {
    if t.Some? && t.value != PLACEHOLDER then t.value else []
  }

  /** User words as a block or part: nothing when they are the image placeholder. */
  function UserMove(t: Text, line: Line): Move {
    if t == PLACEHOLDER && line != OpenAILine then Breaks else Tells(Lit("user"), t)
  }

  /** A call as name, zero unit and sorted arguments; how the arguments reach the wire decides how they are read. */
  function CallRead(c: Call, line: Line, parse: Text -> Option<Json>): Text {
    c.name + [0] + Neutral.Canon(
      match line
      case OpenAILine => c.args
      case ResponsesLine => c.args
      case GoogleLine => if c.args.Null? then Obj([]) else c.args
      case AnthropicLine =>
        match c.args
        case Null => Obj([])
        case Str(s) => (match parse(s) case Some(v) => v case None => c.args)
        case _ => c.args)
  }

  function CallsRead(cs: seq<Call>, line: Line, parse: Text -> Option<Json>): seq<Text> {
    if cs == [] then [] else [CallRead(cs[0], line, parse)] + CallsRead(cs[1..], line, parse)
  }

  function EachCall(calls: seq<Text>): seq<Move> {
    if calls == [] then [] else [Calls(calls[0])] + EachCall(calls[1..])
  }

  function EachResult(rs: seq<ToolReply>): seq<Move> {
    if rs == [] then [] else [Tells(Lit("tool"), rs[0].body)] + EachResult(rs[1..])
  }

  function ItemMoves(item: Item, line: Line, parse: Text -> Option<Json>): seq<Move> {
    match item
    case Says(t) => [UserMove(t, line)]
    case Answers(t) => [Adds(if line == OpenAILine then t else Words(Some(t)), [])]
    case Acts(thinking, prose, calls) =>
      var read := CallsRead(calls, line, parse);
      (match line
       case OpenAILine => [Adds([], read)]
       case AnthropicLine => (if thinking.Some? then [Adds(Words(thinking), [])] else []) + [Adds(Words(prose), read)]
       case ResponsesLine => (if prose.Some? then [Adds(Words(prose), [])] else []) + EachCall(read)
       case GoogleLine => [Adds(Words(prose), read)])
    case Replies(rs, followUp) =>
      EachResult(rs) + if followUp.Some? then [UserMove(followUp.value, line)] else []
  }

  function Moves(items: seq<Item>, line: Line, parse: Text -> Option<Json>): seq<Move> {
    if items == [] then [] else ItemMoves(items[0], line, parse) + Moves(items[1..], line, parse)
  }

  lemma PlaceholderIs()
    ensures PLACEHOLDER == USER_IMAGE_PLACEHOLDER
  {
  }

  // ---- reading the two new renderings ----

  lemma {:induction false} DoAllConcat(st: State, a: seq<Move>, b: seq<Move>)
    ensures DoAll(st, a + b) == DoAll(DoAll(st, a), b)
    decreases |a|
  {
    hide Do;
    if a == [] {
      assert a + b == b;
    } else {
      assert (a + b)[1..] == a[1..] + b;
      DoAllConcat(Do(st, a[0]), a[1..], b);
    }
  }

  lemma DoOne(st: State, m: Move)
    ensures DoAll(st, [m]) == Do(st, m)
  {
    hide Do;
    assert [m][1..] == [];
  }

  lemma Get1(k1: Text, v1: Json, k: Text)
    ensures Get(Obj([Field(k1, v1)]), k) == if k == k1 then Some(v1) else None
  {
    KeyIndexIs([Field(k1, v1)], k, if k == k1 then 0 else 1);
  }

  lemma PlainMessage(kind: Text, role: Text, content: Json)
    requires kind == MESSAGE && (role == USER || role == ASSISTANT)
    ensures var m := Obj([Field(TYPE, Str(kind)), Field(ROLE, Str(role)), Field(CONTENT, content)]);
      && Get(m, ROLE) == Some(Str(role)) && Get(m, CONTENT) == Some(content)
      && !HasParts(m) && !IsFunctionCall(m) && !IsFunctionOutput(m) && !HasToolCalls(m)
  {
    hide Get;
    Spelling();
    NamesApart();
    assert MESSAGE[0] == 109 && FUNCTION_CALL[0] == 102 && FUNCTION_CALL_OUTPUT[0] == 102;
    assert LOCAL_SHELL_CALL_OUTPUT[0] == 108;
    Get3(TYPE, Str(kind), ROLE, Str(role), CONTENT, content, ROLE);
    Get3(TYPE, Str(kind), ROLE, Str(role), CONTENT, content, CONTENT);
    Get3(TYPE, Str(kind), ROLE, Str(role), CONTENT, content, PARTS);
    Get3(TYPE, Str(kind), ROLE, Str(role), CONTENT, content, TYPE);
    Get3(TYPE, Str(kind), ROLE, Str(role), CONTENT, content, TOOL_CALLS);
  }

  lemma ReadKindBlock(kind: Text, t: Text, parse: Text -> Option<Json>)
    requires kind == INPUT_TEXT || kind == OUTPUT_TEXT
    ensures ReadBlock(Obj([Field(TYPE, Str(kind)), Field(TEXT, Str(t))]), parse) ==
      Blocks(if t == USER_IMAGE_PLACEHOLDER then [] else [t], [], [], false)
  {
    hide Get;
    NamesApart();
    assert INPUT_TEXT[0] == 105 && OUTPUT_TEXT[0] == 111 && TOOL_USE[0] == 116 && TOOL_RESULT[0] == 116;
    Get2(TYPE, Str(kind), TEXT, Str(t), TYPE);
    Get2(TYPE, Str(kind), TEXT, Str(t), TEXT);
  }

  /** A responses message: its words, unless they are the placeholder. */
  lemma StepResponsesMessage(st: State, role: Text, kind: Text, t: Text, parse: Text -> Option<Json>)
    requires role == USER || role == ASSISTANT
    requires kind == INPUT_TEXT || kind == OUTPUT_TEXT
    ensures Step(st, ResponsesMessage(role, kind, t), parse) ==
      if role == ASSISTANT then Merge(st, Words(Some(t)), [])
      else if t == PLACEHOLDER then Flush(st)
      else PushText(Flush(st), USER, t)
  {
    hide Step, ReadBlock, Get, Merge, PushText, Flush;
    Spelling();
    PlaceholderIs();
    NamesApart();
    var block := Obj([Field(TYPE, Str(kind)), Field(TEXT, Str(t))]);
    var m := ResponsesMessage(role, kind, t);
    PlainMessage(MESSAGE, role, Arr([block]));
    StepOnBlocks(st, m, role, [block], parse);
    ReadOne(block, parse);
    ReadKindBlock(kind, t, parse);
    ConcatTexts(t);
  }

  lemma StepOnBlocks(st: State, m: Json, role: Text, bs: seq<Json>, parse: Text -> Option<Json>)
    requires m.Obj? && (role == USER || role == ASSISTANT)
    requires Get(m, ROLE) == Some(Str(role)) && Get(m, CONTENT) == Some(Arr(bs))
    requires !HasParts(m) && !IsFunctionCall(m) && !IsFunctionOutput(m) && !HasToolCalls(m)
    ensures Step(st, m, parse) == StepBlocks(st, m, role, parse)
  {
    hide Get, HasParts, IsFunctionCall, IsFunctionOutput, HasToolCalls, StepBlocks;
    NamesApart();
  }

  lemma StepCallItem(st: State, c: Call, parse: Text -> Option<Json>)
    requires RoundTrips(c.args, parse)
    ensures Step(st, FunctionCall(c), parse) == Do(st, Calls(CallRead(c, ResponsesLine, parse)))
  {
    hide Get, Merge;
    Spelling();
    NamesApart();
    assert PARTS[0] == 112 && ARGUMENTS[0] == 97 && TYPE[0] == 116 && NAME[0] == 110;
    var id, name, args := Str(c.id), Str(c.name), Str(Stringify(c.args));
    var kind := Str(FUNCTION_CALL);
    Get4(TYPE, kind, Lit("call_id"), id, NAME, name, ARGUMENTS, args, TYPE);
    Get4(TYPE, kind, Lit("call_id"), id, NAME, name, ARGUMENTS, args, NAME);
    Get4(TYPE, kind, Lit("call_id"), id, NAME, name, ARGUMENTS, args, ARGUMENTS);
    Get4(TYPE, kind, Lit("call_id"), id, NAME, name, ARGUMENTS, args, PARTS);
  }

  lemma StepOutputItem(st: State, r: ToolReply, parse: Text -> Option<Json>)
    ensures Step(st, FunctionOutput(r), parse) == Do(st, Tells(Lit("tool"), r.body))
  {
    hide Get, Flush;
    Spelling();
    NamesApart();
    assert PARTS[0] == 112 && OUTPUT[0] == 111 && TYPE[0] == 116 && USER[0] == 117 && TOOL[0] == 116;
    assert |FUNCTION_CALL| == 13 && |FUNCTION_CALL_OUTPUT| == 20;
    var id, body := Str(r.id), Str(r.body);
    var kind := Str(FUNCTION_CALL_OUTPUT);
    Get3(TYPE, kind, Lit("call_id"), id, OUTPUT, body, TYPE);
    Get3(TYPE, kind, Lit("call_id"), id, OUTPUT, body, OUTPUT);
    Get3(TYPE, kind, Lit("call_id"), id, OUTPUT, body, PARTS);
  }

  // ---- google parts ----

  function JoinParts(a: Parts, b: Parts): Parts {
    Parts(a.texts + b.texts, a.calls + b.calls, if b.toolBody.Some? then b.toolBody else a.toolBody)
  }

  lemma {:induction false} ReadPartsConcat(a: seq<Json>, b: seq<Json>)
    ensures ReadParts(a + b) == JoinParts(ReadParts(a), ReadParts(b))
  {
    hide ReadPart;
    if a == [] {
      assert a + b == b;
    } else {
      assert (a + b)[1..] == a[1..] + b;
      ReadPartsConcat(a[1..], b);
    }
  }

  lemma ReadOnePart(p: Json)
    ensures ReadParts([p]) == ReadPart(p)
  {
    hide ReadPart;
    assert [p][1..] == [];
  }

  lemma GoogleNames()
    ensures TEXT != FUNCTION_CALL_KEY && TEXT != FUNCTION_RESPONSE_KEY && FUNCTION_CALL_KEY != FUNCTION_RESPONSE_KEY
    ensures NAME != ARGS && NAME != RESPONSE && MODEL != USER
  {
    assert TEXT[0] == 116 && FUNCTION_CALL_KEY[8] == 67 && FUNCTION_RESPONSE_KEY[8] == 82;
    assert NAME[0] == 110 && ARGS[0] == 97 && RESPONSE[0] == 114 && MODEL[0] == 109 && USER[0] == 117;
  }

  lemma ReadTextOfPart(t: Text)
    ensures ReadPart(TextOfPart(t)) == Parts(TextsOf(Some(t)), [], None)
  {
    hide Get;
    Spelling();
    GoogleNames();
    Get1(TEXT, Str(t), TEXT);
    Get1(TEXT, Str(t), FUNCTION_CALL_KEY);
    Get1(TEXT, Str(t), FUNCTION_RESPONSE_KEY);
  }

  lemma ReadCallPart(c: Call, parse: Text -> Option<Json>)
    ensures ReadPart(CallPart(c)) == Parts([], [CallRead(c, GoogleLine, parse)], None)
  {
    hide Get;
    Spelling();
    GoogleNames();
    var fc := Obj([Field(NAME, Str(c.name)), Field(ARGS, c.args)]);
    Get1(FUNCTION_CALL_KEY, fc, TEXT);
    Get1(FUNCTION_CALL_KEY, fc, FUNCTION_CALL_KEY);
    Get1(FUNCTION_CALL_KEY, fc, FUNCTION_RESPONSE_KEY);
    Get2(NAME, Str(c.name), ARGS, c.args, NAME);
    Get2(NAME, Str(c.name), ARGS, c.args, ARGS);
  }

  lemma ReadResponsePart(r: ToolReply)
    ensures ReadPart(ResponsePart(r)) == Parts([], [], Some(r.body))
  {
    hide Get;
    Spelling();
    GoogleNames();
    var body := Obj([Field(OUTPUT, Str(r.body))]);
    var fr := Obj([Field(NAME, Str(r.id)), Field(RESPONSE, body)]);
    Get1(FUNCTION_RESPONSE_KEY, fr, TEXT);
    Get1(FUNCTION_RESPONSE_KEY, fr, FUNCTION_CALL_KEY);
    Get1(FUNCTION_RESPONSE_KEY, fr, FUNCTION_RESPONSE_KEY);
    Get2(NAME, Str(r.id), RESPONSE, body, RESPONSE);
  }

  lemma {:induction false} ReadCallParts(cs: seq<Call>, parse: Text -> Option<Json>)
    ensures ReadParts(MapCalls(cs, CallPart)) == Parts([], CallsRead(cs, GoogleLine, parse), None)
  {
    if cs != [] {
      hide ReadPart, CallPart, CallRead;
      ReadCallPart(cs[0], parse);
      ReadCallParts(cs[1..], parse);
      ReadPartsConcat([CallPart(cs[0])], MapCalls(cs[1..], CallPart));
      ReadOnePart(CallPart(cs[0]));
    }
  }

  lemma ReadProseAndCalls(prose: Option<Text>, cs: seq<Call>, parse: Text -> Option<Json>)
    ensures ReadParts(Optional(prose, TextOfPart) + MapCalls(cs, CallPart)) ==
      Parts(TextsOf(prose), CallsRead(cs, GoogleLine, parse), None)
  {
    hide ReadPart, TextOfPart, ReadParts, MapCalls, CallsRead;
    ReadCallParts(cs, parse);
    ReadPartsConcat(Optional(prose, TextOfPart), MapCalls(cs, CallPart));
    if prose.Some? {
      ReadOnePart(TextOfPart(prose.value));
      ReadTextOfPart(prose.value);
    } else {
      NoParts();
    }
    assert TextsOf(prose) + [] == TextsOf(prose);
    assert [] + CallsRead(cs, GoogleLine, parse) == CallsRead(cs, GoogleLine, parse);
  }

  lemma NoParts()
    ensures ReadParts([]) == Parts([], [], None)
  {
  }

  /** An item of parts, by its role. */
  lemma StepContents(st: State, role: Text, ps: seq<Json>, read: Parts, parse: Text -> Option<Json>)
    requires role == USER || role == MODEL
    requires read == ReadParts(ps)
    ensures Step(st, Contents(role, ps), parse) ==
      if role == MODEL then Merge(st, Concat(read.texts), read.calls)
      else
        var s1 := Flush(st);
        var s2 := if read.toolBody.Some? then Push(s1, TextTurn(TOOL, read.toolBody.value)) else s1;
        if read.calls != [] && read.toolBody.None? then
          Push(s2, Turn(ASSISTANT, None, Some(read.calls), [Frag(ASSISTANT, [], read.calls)]))
        else if read.texts != [] then PushText(s2, USER, Concat(read.texts))
        else s2
  {
    hide Get, ReadParts, Merge, Push, PushText, Flush, TextTurn, Concat;
    Spelling();
    NamesApart();
    GoogleNames();
    assert MODEL[0] == 109 && ASSISTANT[0] == 97;
    Get2(ROLE, Str(role), PARTS, Arr(ps), ROLE);
    Get2(ROLE, Str(role), PARTS, Arr(ps), PARTS);
  }

  lemma WordsAreKept(t: Option<Text>)
    ensures Concat(TextsOf(t)) == Words(t)
  {
    PlaceholderIs();
    if t.Some? {
      ConcatTexts(t.value);
    }
  }

  lemma StepGoogleText(st: State, role: Text, t: Text, parse: Text -> Option<Json>)
    requires role == USER || role == MODEL
    ensures Step(st, Contents(role, [TextOfPart(t)]), parse) ==
      if role == MODEL then Merge(st, Words(Some(t)), [])
      else if t == PLACEHOLDER then Flush(st) else PushText(Flush(st), USER, t)
  {
    hide Step, Contents, TextOfPart, Merge, PushText, Flush, ReadPart, ReadParts, Concat, Words;
    PlaceholderIs();
    GoogleNames();
    ReadOnePart(TextOfPart(t));
    ReadTextOfPart(t);
    StepContents(st, role, [TextOfPart(t)], ReadParts([TextOfPart(t)]), parse);
    WordsAreKept(Some(t));
    ConcatTexts(t);
  }

  lemma StepGoogleResult(st: State, r: ToolReply, parse: Text -> Option<Json>)
    ensures Step(st, ResponseContents(r), parse) == Do(st, Tells(Lit("tool"), r.body))
  {
    hide Step, Contents, ResponsePart, Merge, Flush, ReadPart, ReadParts, Concat;
    Spelling();
    NamesApart();
    GoogleNames();
    ReadOnePart(ResponsePart(r));
    ReadResponsePart(r);
    StepContents(st, USER, [ResponsePart(r)], ReadParts([ResponsePart(r)]), parse);
  }

  // ---- one item does what it contributes ----

  lemma {:induction false} CallsReadAs(cs: seq<Call>, parse: Text -> Option<Json>)
    ensures CallsRead(cs, OpenAILine, parse) == CallsOf(cs)
    ensures CallsRead(cs, ResponsesLine, parse) == CallsOf(cs)
    ensures CallsRead(cs, AnthropicLine, parse) == UsesOf(cs, parse)
  {
    if cs != [] {
      hide Neutral.Canon;
      CallsReadAs(cs[1..], parse);
    }
  }

  lemma {:induction false} ResultsAreTold(st: State, rs: seq<ToolReply>)
    requires rs != []
    ensures DoAll(st, EachResult(rs)) == PushTools(Flush(st), BodiesOf(rs))
    ensures Flush(DoAll(st, EachResult(rs))) == DoAll(st, EachResult(rs))
    decreases |rs|
  {
    Spelling();
    NamesApart();
    var next := Push(Flush(st), TextTurn(TOOL, rs[0].body));
    assert Do(st, Tells(TOOL, rs[0].body)) == next;
    assert EachResult(rs)[1..] == EachResult(rs[1..]);
    assert BodiesOf(rs)[1..] == BodiesOf(rs[1..]);
    if rs[1..] != [] {
      ResultsAreTold(next, rs[1..]);
      assert Flush(next) == next;
    }
  }

  lemma ThenUser(st: State, rs: seq<ToolReply>, followUp: Option<Text>, line: Line)
    ensures DoAll(st, EachResult(rs) + if followUp.Some? then [UserMove(followUp.value, line)] else []) ==
      var told := DoAll(st, EachResult(rs));
      if followUp.Some? then Do(told, UserMove(followUp.value, line)) else told
  {
    hide Do, DoAll, EachResult;
    if followUp.Some? {
      DoAllConcat(st, EachResult(rs), [UserMove(followUp.value, line)]);
      DoOne(DoAll(st, EachResult(rs)), UserMove(followUp.value, line));
    } else {
      assert EachResult(rs) + [] == EachResult(rs);
    }
  }

  lemma OpenAIDoes(st: State, item: Item, parse: Text -> Option<Json>)
    requires GoodItem(item, parse)
    ensures Run(st, OpenAIRender(item), parse) == DoAll(st, ItemMoves(item, OpenAILine, parse))
  {
    hide Step, Run, Merge, PushText, Flush, DoAll, PushTools, EachResult, BodiesOf, MapReplies, MapCalls, RoundTrips;
    Spelling();
    NamesApart();
    match item
    case Says(t) =>
      StepString(st, USER, t, parse);
      RunOne(st, Message(USER, Str(t)), parse);
      DoOne(st, Tells(USER, t));
    case Answers(t) =>
      StepString(st, ASSISTANT, t, parse);
      RunOne(st, Message(ASSISTANT, Str(t)), parse);
      DoOne(st, Adds(t, []));
    case Acts(_, _, calls) =>
      StepOpenAIActs(st, item, parse);
      RunOne(st, OpenAIRender(item)[0], parse);
      CallsReadAs(calls, parse);
      DoOne(st, Adds([], CallsOf(calls)));
    case Replies(rs, followUp) =>
      RunOpenAIReplies(st, rs, followUp, parse);
      ResultsAreTold(st, rs);
      ThenUser(st, rs, followUp, OpenAILine);
  }

  lemma AnthropicActsDoes(st: State, item: Item, parse: Text -> Option<Json>)
    requires item.Acts? && GoodItem(item, parse)
    ensures Run(st, AnthropicRender(item), parse) == DoAll(st, ItemMoves(item, AnthropicLine, parse))
  {
    hide Step, Run, Merge, DoAll, MapCalls, RoundTrips, Message, CallsRead, Words;
    CallsReadAs(item.calls, parse);
    PlaceholderIs();
    WordsAreKept(item.prose);
    var read := CallsRead(item.calls, AnthropicLine, parse);
    var last := Message(ASSISTANT, Arr(Optional(item.prose, TextBlock) + MapCalls(item.calls, ToolUse)));
    assert Words(item.prose) + [] == Words(item.prose);
    if item.thinking.Some? {
      var x := item.thinking.value;
      StepThinking(st, x, parse);
      WordsAreKept(item.thinking);
      ConcatTexts(x);
      Run2(st, Message(ASSISTANT, Arr([ThinkingBlock(x)])), last, parse);
      StepAnthropicActs(Merge(st, Kept(x), []), item.prose, item.calls, parse);
      DoAllConcat(st, [Adds(Words(item.thinking), [])], [Adds(Words(item.prose), read)]);
      DoOne(st, Adds(Words(item.thinking), []));
      DoOne(Merge(st, Kept(x), []), Adds(Words(item.prose), read));
    } else {
      RunOne(st, last, parse);
      assert AnthropicRender(item) == [last];
      StepAnthropicActs(st, item.prose, item.calls, parse);
      DoOne(st, Adds(Words(item.prose), read));
      assert [] + [Adds(Words(item.prose), read)] == [Adds(Words(item.prose), read)];
    }
  }

  lemma AnthropicDoes(st: State, item: Item, parse: Text -> Option<Json>)
    requires GoodItem(item, parse)
    ensures Run(st, AnthropicRender(item), parse) == DoAll(st, ItemMoves(item, AnthropicLine, parse))
  {
    hide Step, Run, Merge, PushText, Flush, DoAll, PushTools, EachResult, BodiesOf, MapReplies, RoundTrips;
    hide Message, TextBlock;
    Spelling();
    NamesApart();
    PlaceholderIs();
    match item
    case Says(t) =>
      StepTextBlock(st, USER, t, parse);
      RunOne(st, Message(USER, Arr([TextBlock(t)])), parse);
      DoOne(st, UserMove(t, AnthropicLine));
    case Answers(t) =>
      StepTextBlock(st, ASSISTANT, t, parse);
      RunOne(st, Message(ASSISTANT, Arr([TextBlock(t)])), parse);
      DoOne(st, Adds(Words(Some(t)), []));
    case Acts(_, _, _) => AnthropicActsDoes(st, item, parse);
    case Replies(rs, followUp) =>
      RunOne(st, Message(USER, Arr(MapReplies(rs, ResultBlock) + Optional(followUp, TextBlock))), parse);
      StepAnthropicReplies(st, rs, followUp, parse);
      ResultsAreTold(st, rs);
      ThenUser(st, rs, followUp, AnthropicLine);
      RepliesFollow(PushTools(Flush(st), BodiesOf(rs)), followUp, AnthropicLine);
  }

  lemma RepliesFollow(told: State, followUp: Option<Text>, line: Line)
    requires Flush(told) == told && line != OpenAILine
    ensures (if TextsOf(followUp) != [] then PushText(told, USER, followUp.value) else told) ==
      if followUp.Some? then Do(told, UserMove(followUp.value, line)) else told
  {
    hide Flush, PushText;
    Spelling();
    PlaceholderIs();
  }

  lemma {:induction false} RunCallItems(st: State, cs: seq<Call>, parse: Text -> Option<Json>)
    requires forall i :: 0 <= i < |cs| ==> RoundTrips(cs[i].args, parse)
    ensures Run(st, MapCalls(cs, FunctionCall), parse) == DoAll(st, EachCall(CallsRead(cs, ResponsesLine, parse)))
    decreases |cs|
  {
    if cs != [] {
      hide Step, FunctionCall, CallRead, Do, RoundTrips;
      StepCallItem(st, cs[0], parse);
      RunCallItems(Step(st, FunctionCall(cs[0]), parse), cs[1..], parse);
      assert MapCalls(cs, FunctionCall)[1..] == MapCalls(cs[1..], FunctionCall);
      var calls := CallsRead(cs, ResponsesLine, parse);
      assert calls[1..] == CallsRead(cs[1..], ResponsesLine, parse);
      assert EachCall(calls)[1..] == EachCall(calls[1..]);
    }
  }

  lemma {:induction false} RunOutputItems(st: State, rs: seq<ToolReply>, parse: Text -> Option<Json>)
    ensures Run(st, MapReplies(rs, FunctionOutput), parse) == DoAll(st, EachResult(rs))
    decreases |rs|
  {
    if rs != [] {
      hide Step, FunctionOutput, Do;
      StepOutputItem(st, rs[0], parse);
      RunOutputItems(Step(st, FunctionOutput(rs[0]), parse), rs[1..], parse);
      assert MapReplies(rs, FunctionOutput)[1..] == MapReplies(rs[1..], FunctionOutput);
      assert EachResult(rs)[1..] == EachResult(rs[1..]);
    }
  }

  lemma {:induction false} RunResultContents(st: State, rs: seq<ToolReply>, parse: Text -> Option<Json>)
    ensures Run(st, MapReplies(rs, ResponseContents), parse) == DoAll(st, EachResult(rs))
    decreases |rs|
  {
    if rs != [] {
      hide Step, ResponseContents, Do;
      StepGoogleResult(st, rs[0], parse);
      RunResultContents(Step(st, ResponseContents(rs[0]), parse), rs[1..], parse);
      assert MapReplies(rs, ResponseContents)[1..] == MapReplies(rs[1..], ResponseContents);
      assert EachResult(rs)[1..] == EachResult(rs[1..]);
    }
  }

  lemma RunThenUser(st: State, rs: seq<ToolReply>, front: seq<Json>, followUp: Option<Text>, user: Text -> Json,
                    line: Line, parse: Text -> Option<Json>)
    requires Run(st, front, parse) == DoAll(st, EachResult(rs))
    requires followUp.Some? ==>
      Step(DoAll(st, EachResult(rs)), user(followUp.value), parse) ==
      Do(DoAll(st, EachResult(rs)), UserMove(followUp.value, line))
    ensures Run(st, front + Optional(followUp, user), parse) ==
      DoAll(st, EachResult(rs) + if followUp.Some? then [UserMove(followUp.value, line)] else [])
  {
    hide Step, Run, Do, DoAll, EachResult;
    ThenUser(st, rs, followUp, line);
    RunAppend(st, front, Optional(followUp, user), parse);
    if followUp.Some? {
      RunOne(DoAll(st, EachResult(rs)), user(followUp.value), parse);
    } else {
      assert front + [] == front;
    }
  }

  lemma ResponsesActsDoes(st: State, item: Item, parse: Text -> Option<Json>)
    requires item.Acts? && GoodItem(item, parse)
    ensures Run(st, ResponsesRender(item), parse) == DoAll(st, ItemMoves(item, ResponsesLine, parse))
  {
    hide Step, Run, Do, DoAll, EachCall, MapCalls, RoundTrips, CallsRead, ResponsesMessage;
    Spelling();
    NamesApart();
    var prose, items := item.prose, MapCalls(item.calls, FunctionCall);
    var calls := EachCall(CallsRead(item.calls, ResponsesLine, parse));
    if prose.Some? {
      var m := ResponsesMessage(ASSISTANT, OUTPUT_TEXT, prose.value);
      StepResponsesMessage(st, ASSISTANT, OUTPUT_TEXT, prose.value, parse);
      var next := Do(st, Adds(Words(prose), []));
      AddsWords(st, prose.value);
      RunAppend(st, [m], items, parse);
      RunOne(st, m, parse);
      RunCallItems(next, item.calls, parse);
      DoAllConcat(st, [Adds(Words(prose), [])], calls);
      DoOne(st, Adds(Words(prose), []));
    } else {
      RunCallItems(st, item.calls, parse);
      assert [] + items == items && [] + calls == calls;
    }
  }

  lemma AddsWords(st: State, t: Text)
    ensures Do(st, Adds(Words(Some(t)), [])) == Merge(st, Words(Some(t)), [])
  {
  }

  lemma UserMoveDoes(st: State, t: Text, line: Line)
    requires line != OpenAILine
    ensures Do(st, UserMove(t, line)) == if t == PLACEHOLDER then Flush(st) else PushText(Flush(st), USER, t)
  {
    Spelling();
  }

  lemma ResponsesDoes(st: State, item: Item, parse: Text -> Option<Json>)
    requires GoodItem(item, parse)
    ensures Run(st, ResponsesRender(item), parse) == DoAll(st, ItemMoves(item, ResponsesLine, parse))
  {
    hide Step, Run, Do, DoAll, EachResult, MapReplies, RoundTrips, ResponsesMessage, Merge, PushText, Flush, Words, UserMove;
    Spelling();
    NamesApart();
    match item
    case Says(t) =>
      StepResponsesMessage(st, USER, INPUT_TEXT, t, parse);
      RunOne(st, ResponsesMessage(USER, INPUT_TEXT, t), parse);
      UserMoveDoes(st, t, ResponsesLine);
      DoOne(st, UserMove(t, ResponsesLine));
    case Answers(t) =>
      StepResponsesMessage(st, ASSISTANT, OUTPUT_TEXT, t, parse);
      RunOne(st, ResponsesMessage(ASSISTANT, OUTPUT_TEXT, t), parse);
      AddsWords(st, t);
      DoOne(st, Adds(Words(Some(t)), []));
    case Acts(_, _, _) => ResponsesActsDoes(st, item, parse);
    case Replies(rs, followUp) =>
      RunOutputItems(st, rs, parse);
      if followUp.Some? {
        var told := DoAll(st, EachResult(rs));
        StepResponsesMessage(told, USER, INPUT_TEXT, followUp.value, parse);
        UserMoveDoes(told, followUp.value, ResponsesLine);
      }
      RunThenUser(st, rs, MapReplies(rs, FunctionOutput), followUp, t => ResponsesMessage(USER, INPUT_TEXT, t),
                  ResponsesLine, parse);
      assert ResponsesRender(item) == MapReplies(rs, FunctionOutput)
        + Optional(followUp, t => ResponsesMessage(USER, INPUT_TEXT, t));
  }

  lemma GoogleActsDoes(st: State, prose: Option<Text>, calls: seq<Call>, parse: Text -> Option<Json>)
    ensures Run(st, [Contents(MODEL, Optional(prose, TextOfPart) + MapCalls(calls, CallPart))], parse) ==
      DoAll(st, [Adds(Words(prose), CallsRead(calls, GoogleLine, parse))])
  {
    hide Step, Run, Do, DoAll, Contents, Merge, PushText, Flush, Words, MapCalls, CallsRead, ReadParts, TextOfPart;
    GoogleNames();
    var ps := Optional(prose, TextOfPart) + MapCalls(calls, CallPart);
    ReadProseAndCalls(prose, calls, parse);
    StepContents(st, MODEL, ps, ReadParts(ps), parse);
    RunOne(st, Contents(MODEL, ps), parse);
    WordsAreKept(prose);
    AddsBoth(st, Words(prose), CallsRead(calls, GoogleLine, parse));
    DoOne(st, Adds(Words(prose), CallsRead(calls, GoogleLine, parse)));
  }

  lemma GoogleRepliesDoes(st: State, rs: seq<ToolReply>, followUp: Option<Text>, parse: Text -> Option<Json>)
    ensures Run(st, MapReplies(rs, ResponseContents) + Optional(followUp, t => Contents(USER, [TextOfPart(t)])), parse) ==
      DoAll(st, EachResult(rs) + if followUp.Some? then [UserMove(followUp.value, GoogleLine)] else [])
  {
    hide Step, Run, Do, DoAll, EachResult, MapReplies, Contents, PushText, Flush, UserMove, TextOfPart;
    GoogleNames();
    RunResultContents(st, rs, parse);
    if followUp.Some? {
      var told := DoAll(st, EachResult(rs));
      StepGoogleText(told, USER, followUp.value, parse);
      UserMoveDoes(told, followUp.value, GoogleLine);
    }
    RunThenUser(st, rs, MapReplies(rs, ResponseContents), followUp, t => Contents(USER, [TextOfPart(t)]), GoogleLine,
                parse);
  }

  lemma GoogleDoes(st: State, item: Item, parse: Text -> Option<Json>)
    ensures Run(st, GoogleRender(item), parse) == DoAll(st, ItemMoves(item, GoogleLine, parse))
  {
    hide Step, Run, Do, DoAll, EachResult, MapReplies, Contents, Merge, PushText, Flush, Words, UserMove;
    hide MapCalls, CallsRead, TextOfPart;
    Spelling();
    GoogleNames();
    match item
    case Says(t) =>
      StepGoogleText(st, USER, t, parse);
      RunOne(st, Contents(USER, [TextOfPart(t)]), parse);
      UserMoveDoes(st, t, GoogleLine);
      DoOne(st, UserMove(t, GoogleLine));
    case Answers(t) =>
      StepGoogleText(st, MODEL, t, parse);
      RunOne(st, Contents(MODEL, [TextOfPart(t)]), parse);
      AddsWords(st, t);
      DoOne(st, Adds(Words(Some(t)), []));
    case Acts(_, prose, calls) => GoogleActsDoes(st, prose, calls, parse);
    case Replies(rs, followUp) =>
      GoogleRepliesDoes(st, rs, followUp, parse);
      assert GoogleRender(item) == MapReplies(rs, ResponseContents)
        + Optional(followUp, t => Contents(USER, [TextOfPart(t)]));
  }

  lemma AddsBoth(st: State, words: Text, calls: seq<Text>)
    ensures Do(st, Adds(words, calls)) == Merge(st, words, calls)
  {
  }

  // ---- the whole conversation ----

  function Render(line: Line): Item -> seq<Json> {
    match line
    case OpenAILine => OpenAIRender
    case AnthropicLine => AnthropicRender
    case ResponsesLine => ResponsesRender
    case GoogleLine => GoogleRender
  }

  lemma ItemDoes(st: State, item: Item, line: Line, parse: Text -> Option<Json>)
    requires GoodItem(item, parse)
    ensures Run(st, Render(line)(item), parse) == DoAll(st, ItemMoves(item, line, parse))
  {
    hide Run, DoAll, ItemMoves, GoodItem, OpenAIRender, AnthropicRender, ResponsesRender, GoogleRender;
    match line
    case OpenAILine => OpenAIDoes(st, item, parse);
    case AnthropicLine => AnthropicDoes(st, item, parse);
    case ResponsesLine => ResponsesDoes(st, item, parse);
    case GoogleLine => GoogleDoes(st, item, parse);
  }

  lemma OneItemMore(items: seq<Item>, line: Line, parse: Text -> Option<Json>)
    requires items != []
    ensures RenderAll(items, Render(line)) == Render(line)(items[0]) + RenderAll(items[1..], Render(line))
    ensures Moves(items, line, parse) == ItemMoves(items[0], line, parse) + Moves(items[1..], line, parse)
  {
    hide Render, ItemMoves;
  }

  lemma NothingDone(st: State, line: Line, parse: Text -> Option<Json>)
    ensures Run(st, RenderAll([], Render(line)), parse) == DoAll(st, Moves([], line, parse))
  {
  }

  lemma {:induction false} ItemsDo(st: State, items: seq<Item>, line: Line, parse: Text -> Option<Json>)
    requires forall i :: 0 <= i < |items| ==> GoodItem(items[i], parse)
    ensures Run(st, RenderAll(items, Render(line)), parse) == DoAll(st, Moves(items, line, parse))
    decreases |items|
  {
    hide Run, DoAll, ItemMoves, GoodItem, Render;
    if items == [] {
      NothingDone(st, line, parse);
    } else {
      hide Moves, RenderAll;
      var item, rest := items[0], items[1..];
      var next := Run(st, Render(line)(item), parse);
      ItemDoes(st, item, line, parse);
      ItemsDo(next, rest, line, parse);
      OneItemMore(items, line, parse);
      RunAppend(st, Render(line)(item), RenderAll(rest, Render(line)), parse);
      DoAllConcat(st, ItemMoves(item, line, parse), Moves(rest, line, parse));
    }
  }

  // ---- the leading system run ----

  /** A system or developer message, as openai-style clients send it. */
  predicate SystemMessage(m: Json) {
    m.Obj? && (Get(m, Lit("role")) == Some(Str(Lit("system"))) || Get(m, Lit("role")) == Some(Str(Lit("developer"))))
  }

  lemma {:induction false} SystemRunLength(sys: seq<Json>, list: seq<Json>)
    requires forall m :: m in sys ==> SystemMessage(m)
    requires list != [] ==> !SystemMessage(list[0])
    ensures SystemRun(sys + list) == |sys|
  {
    Spelling();
    if sys != [] {
      assert sys[0] in sys && (sys + list)[0] == sys[0] && IsSystem(sys[0]);
      assert (sys + list)[1..] == sys[1..] + list;
      SystemRunLength(sys[1..], list);
    } else {
      assert sys + list == list;
    }
  }

  /** Where the leading system messages end. */
  lemma {:induction false} SystemHead(list: seq<Json>) returns (sys: seq<Json>, rest: seq<Json>)
    ensures list == sys + rest && (forall m :: m in sys ==> SystemMessage(m)) && (rest != [] ==> !SystemMessage(rest[0]))
  {
    hide SystemMessage;
    if list == [] || !SystemMessage(list[0]) {
      sys, rest := [], list;
    } else {
      var tail: seq<Json>;
      tail, rest := SystemHead(list[1..]);
      sys := [list[0]] + tail;
      assert list == [list[0]] + list[1..];
      assert forall m :: m in sys ==> m == list[0] || m in tail;
    }
  }

  /** Leading system and developer messages leave no trace in the turns, however many there are and whatever they say. */
  lemma SystemMessagesVanish(sys: seq<Json>, list: seq<Json>, parse: Text -> Option<Json>)
    requires forall m :: m in sys ==> SystemMessage(m)
    ensures Project(sys + list, parse) == Project(list, parse)
  {
    hide Run, SystemMessage;
    var more, rest := SystemHead(list);
    assert sys + list == (sys + more) + rest;
    SystemRunLength(sys + more, rest);
    SystemRunLength(more, rest);
    assert (sys + list)[|sys + more|..] == rest && list[|more|..] == rest;
  }

  /** A list whose first message is anything else is read from there on. */
  lemma NothingElseVanishes(list: seq<Json>, parse: Text -> Option<Json>)
    requires list != [] ==> !SystemMessage(list[0])
    ensures Project(list, parse) == Flush(Run(Start, list, parse)).turns
  {
    hide Run, SystemMessage;
    SystemRunLength([], list);
    assert [] + list == list && list[0..] == list;
  }

  lemma NotSystem(m: Json, role: Text)
    requires m.Obj? && Get(m, ROLE) == Some(Str(role))
    requires role == USER || role == ASSISTANT || role == TOOL || role == MODEL
    ensures !SystemMessage(m)
  {
    Spelling();
    assert SYSTEM[0] == 115 && DEVELOPER[0] == 100 && USER[0] == 117 && ASSISTANT[0] == 97 && TOOL[0] == 116;
    assert MODEL[0] == 109;
  }

  lemma FirstField(m: Json, role: Text)
    requires m.Obj? && m.fields != [] && m.fields[0] == Field(ROLE, Str(role))
    requires role == USER || role == ASSISTANT || role == TOOL || role == MODEL
    ensures !SystemMessage(m)
  {
    KeyIndexIs(m.fields, ROLE, 0);
    NotSystem(m, role);
  }

  lemma CallItemHasNoRole(c: Call)
    ensures !SystemMessage(FunctionCall(c))
  {
    hide Get;
    Spelling();
    assert ROLE[0] == 114 && TYPE[0] == 116 && NAME[0] == 110 && ARGUMENTS[0] == 97;
    Get4(TYPE, Str(Lit("function_call")), Lit("call_id"), Str(c.id), NAME, Str(c.name), ARGUMENTS,
         Str(Stringify(c.args)), ROLE);
  }

  lemma SomethingRendered(item: Item, line: Line, parse: Text -> Option<Json>)
    requires GoodItem(item, parse)
    ensures Render(line)(item) != []
  {
    hide RoundTrips;
  }

  lemma FirstIsNoSystem(item: Item, line: Line, parse: Text -> Option<Json>)
    requires GoodItem(item, parse)
    ensures Render(line)(item) != [] && !SystemMessage(Render(line)(item)[0])
  {
    hide Get, RoundTrips, SystemMessage, OpenAICall, ToolUse, TextBlock, CallPart, TextOfPart, FunctionCall;
    hide ResponsesMessage, FunctionOutput;
    Spelling();
    SomethingRendered(item, line, parse);
    var first := Render(line)(item)[0];
    match line
    case OpenAILine => FirstField(first, if item.Says? then USER else if item.Replies? then TOOL else ASSISTANT);
    case AnthropicLine => FirstField(first, if item.Says? || item.Replies? then USER else ASSISTANT);
    case GoogleLine => FirstField(first, if item.Says? || item.Replies? then USER else MODEL);
    case ResponsesLine =>
      if item.Says? {
        MessageNotSystem(USER, INPUT_TEXT, item.text);
      } else if item.Answers? {
        MessageNotSystem(ASSISTANT, OUTPUT_TEXT, item.text);
      } else if item.Acts? && item.prose.Some? {
        MessageNotSystem(ASSISTANT, OUTPUT_TEXT, item.prose.value);
      } else if item.Acts? {
        CallItemHasNoRole(item.calls[0]);
      } else {
        OutputHasNoRole(item.replies[0]);
      }
  }

  lemma MessageNotSystem(role: Text, kind: Text, t: Text)
    requires role == USER || role == ASSISTANT
    ensures !SystemMessage(ResponsesMessage(role, kind, t))
  {
    hide Get;
    Spelling();
    PlainMessage(MESSAGE, role, Arr([Obj([Field(TYPE, Str(kind)), Field(TEXT, Str(t))])]));
    NotSystem(ResponsesMessage(role, kind, t), role);
  }

  lemma OutputHasNoRole(r: ToolReply)
    ensures !SystemMessage(FunctionOutput(r))
  {
    hide Get;
    Spelling();
    assert ROLE[0] == 114 && TYPE[0] == 116 && OUTPUT[0] == 111;
    Get3(TYPE, Str(Lit("function_call_output")), Lit("call_id"), Str(r.id), OUTPUT, Str(r.body), ROLE);
  }

  /**
   * On every wire a conversation projects to exactly the turns its items contribute: user words and tool
   * results one turn each, every assistant run one turn of its calls or else its words, leading system
   * messages nothing.
   */
  lemma ConversationTurns(sys: seq<Json>, items: seq<Item>, line: Line, parse: Text -> Option<Json>)
    requires forall m :: m in sys ==> SystemMessage(m)
    requires forall i :: 0 <= i < |items| ==> GoodItem(items[i], parse)
    ensures Project(sys + RenderAll(items, Render(line)), parse) == Spoken(Moves(items, line, parse))
  {
    hide Run, SystemMessage, GoodItem, Moves, Spoken, Project, DoAll, Render;
    var list := RenderAll(items, Render(line));
    SystemMessagesVanish(sys, list, parse);
    if items != [] {
      FirstIsNoSystem(items[0], line, parse);
      OneItemMore(items, line, parse);
      assert list[0] == Render(line)(items[0])[0];
    }
    NothingElseVanishes(list, parse);
    ItemsDo(Start, items, line, parse);
    DoSpeaks(Start, Moves(items, line, parse));
    SpokenIdle(Moves(items, line, parse));
    assert Start.turns + Spoken(Moves(items, line, parse)) == Spoken(Moves(items, line, parse));
  }
}
