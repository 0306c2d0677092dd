/** One conversation rendered on the openai and on the anthropic wire, and what the projection reads back. */
module NeutralWires {
  import opened Texts
  import opened Seqs
  import opened Json
  import opened Printing
  import opened Names
  import opened Neutral

  const ID: Text := Lit("id")
  const TOOL_USE_ID: Text := Lit("tool_use_id")
  const TOOL_CALL_ID: Text := Lit("tool_call_id")

  // ---- conversations and their two renderings ----

  datatype Call = Call(id: Text, name: Text, args: Json)

  datatype ToolReply = ToolReply(id: Text, body: Text)

  /** Acts: an assistant turn with calls; its thinking and prose exist on some renderings only. */
  datatype Item =
    | Says(text: Text)
    | Answers(text: Text)
    | Acts(thinking: Option<Text>, prose: Option<Text>, calls: seq<Call>)
    | Replies(replies: seq<ToolReply>, followUp: Option<Text>)

  function Message(role: Text, content: Json): Json {
    Obj([Field(ROLE, Str(role)), Field(CONTENT, content)])
  }

  function TextBlock(text: Text): Json {
    Obj([Field(TYPE, Str(TEXT)), Field(TEXT, Str(text))])
  }

  function ThinkingBlock(text: Text): Json {
    Obj([Field(TYPE, Str(THINKING)), Field(THINKING, Str(text))])
  }

  function OpenAICall(c: Call): Json {
    Obj([Field(ID, Str(c.id)),
         Field(FUNCTION, Obj([Field(NAME, Str(c.name)), Field(ARGUMENTS, Str(Stringify(c.args)))]))])
  }

  function ToolUse(c: Call): Json {
    Obj([Field(TYPE, Str(TOOL_USE)), Field(ID, Str(c.id)), Field(NAME, Str(c.name)), Field(INPUT, c.args)])
  }

  function ToolMessage(r: ToolReply): Json {
    Obj([Field(ROLE, Str(TOOL)), Field(TOOL_CALL_ID, Str(r.id)), Field(CONTENT, Str(r.body))])
  }

  function ResultBlock(r: ToolReply): Json {
    Obj([Field(TYPE, Str(TOOL_RESULT)), Field(TOOL_USE_ID, Str(r.id)), Field(CONTENT, Str(r.body))])
  }

  function Optional(t: Option<Text>, render: Text -> Json): seq<Json> {
    match t case Some(s) => [render(s)] case None => []
  }

  function MapCalls(cs: seq<Call>, render: Call -> Json): seq<Json> {
    if cs == [] then [] else [render(cs[0])] + MapCalls(cs[1..], render)
  }

  function MapReplies(rs: seq<ToolReply>, render: ToolReply -> Json): seq<Json> {
    if rs == [] then [] else [render(rs[0])] + MapReplies(rs[1..], render)
  }

  /** openai: arguments as JSON text, one message per tool result, content null or prose beside tool_calls. */
  function OpenAIRender(item: Item): seq<Json> {
    match item
    case Says(t) => [Message(USER, Str(t))]
    case Answers(t) => [Message(ASSISTANT, Str(t))]
    case Acts(_, prose, calls) =>
      [Obj([Field(ROLE, Str(ASSISTANT)), Field(CONTENT, if prose.Some? then Str(prose.value) else Null),
            Field(TOOL_CALLS, Arr(MapCalls(calls, OpenAICall)))])]
    case Replies(rs, followUp) => MapReplies(rs, ToolMessage) + Optional(followUp, t => Message(USER, Str(t)))
  }

  /** anthropic: content blocks, thinking in a message of its own, all results and the user text in one message. */
  function AnthropicRender(item: Item): seq<Json> {
    match item
    case Says(t) => [Message(USER, Arr([TextBlock(t)]))]
    case Answers(t) => [Message(ASSISTANT, Arr([TextBlock(t)]))]
    case Acts(thinking, prose, calls) =>
      Optional(thinking, t => Message(ASSISTANT, Arr([ThinkingBlock(t)])))
      + [Message(ASSISTANT, Arr(Optional(prose, TextBlock) + MapCalls(calls, ToolUse)))]
    case Replies(rs, followUp) =>
      [Message(USER, Arr(MapReplies(rs, ResultBlock) + Optional(followUp, TextBlock)))]
  }

  function RenderAll(items: seq<Item>, render: Item -> seq<Json>): seq<Json> {
    FlatMap(items, render)
  }

  // ---- conversations that survive rendering ----

  /** JSON.parse undoes JSON.stringify, up to what sorted printing hides. */
  predicate RoundTrips(args: Json, parse: Text -> Option<Json>) {
    match parse(Stringify(args)) case Some(v) => Neutral.Canon(v) == Neutral.Canon(args) case None => false
  }

  /** A turn with calls has one, a message of results has one, and their arguments survive the JSON text. */
  predicate GoodItem(item: Item, parse: Text -> Option<Json>) {
    match item
    case Says(_) => true
    case Answers(_) => true
    case Acts(_, _, calls) => calls != [] && forall i :: 0 <= i < |calls| ==> RoundTrips(calls[i].args, parse)
    case Replies(rs, _) => rs != []
  }

  // ---- reading the rendered shapes ----

  lemma NamesApart()
    ensures ROLE != CONTENT && ROLE != TYPE && ROLE != TEXT && ROLE != NAME && ROLE != PARTS && CONTENT != TYPE
    ensures TYPE != TEXT && TYPE != NAME && TEXT != NAME && TYPE != INPUT && TYPE != ID && NAME != ID && NAME != INPUT
    ensures PARTS != CONTENT && PARTS != TOOL_CALLS && TOOL_CALLS != ROLE && TOOL_CALLS != CONTENT && TYPE != TOOL_CALLS
    ensures THINKING != TYPE && TEXT != THINKING && FUNCTION != ID && ARGUMENTS != NAME && INPUT != ID
    ensures TOOL_CALL_ID != ROLE && TOOL_CALL_ID != CONTENT && TOOL_CALL_ID != TYPE && TOOL_CALL_ID != PARTS
    ensures TOOL_USE_ID != TYPE && TOOL_USE_ID != CONTENT && TOOL_CALL_ID != TOOL_CALLS
    ensures REASONING_CONTENT != ROLE && REASONING_CONTENT != CONTENT
    ensures USER != ASSISTANT && TOOL != USER && TOOL != ASSISTANT
    ensures TOOL_USE != TOOL_RESULT && TEXT != TOOL_USE && TEXT != TOOL_RESULT && TEXT != INPUT_TEXT
    ensures THINKING != TOOL_USE && THINKING != TOOL_RESULT && THINKING != INPUT_TEXT && THINKING != OUTPUT_TEXT
  {
    assert ROLE[0] == 114 && TYPE[0] == 116 && TEXT[0] == 116 && NAME[0] == 110 && TYPE[1] == 121 && TEXT[1] == 101;
    assert USER[0] == 117 && TOOL[0] == 116 && TOOL_USE[0] == 116 && THINKING[1] == 104 && TOOL_USE[1] == 111;
    assert PARTS[0] == 112 && INPUT[0] == 105;
  }

  lemma Get2(k1: Text, v1: Json, k2: Text, v2: Json, k: Text)
    ensures Get(Obj([Field(k1, v1), Field(k2, v2)]), k) ==
      if k == k1 then Some(v1) else if k == k2 then Some(v2) else None
  {
    var fs := [Field(k1, v1), Field(k2, v2)];
    KeyIndexIs(fs, k, if k == k1 then 0 else if k == k2 then 1 else 2);
  }

  lemma Get3(k1: Text, v1: Json, k2: Text, v2: Json, k3: Text, v3: Json, k: Text)
    ensures Get(Obj([Field(k1, v1), Field(k2, v2), Field(k3, v3)]), k) ==
      if k == k1 then Some(v1) else if k == k2 then Some(v2) else if k == k3 then Some(v3) else None
  {
    var fs := [Field(k1, v1), Field(k2, v2), Field(k3, v3)];
    KeyIndexIs(fs, k, if k == k1 then 0 else if k == k2 then 1 else if k == k3 then 2 else 3);
  }

  lemma Get4(k1: Text, v1: Json, k2: Text, v2: Json, k3: Text, v3: Json, k4: Text, v4: Json, k: Text)
    ensures Get(Obj([Field(k1, v1), Field(k2, v2), Field(k3, v3), Field(k4, v4)]), k) ==
      if k == k1 then Some(v1) else if k == k2 then Some(v2) else if k == k3 then Some(v3)
      else if k == k4 then Some(v4) else None
  {
    var fs := [Field(k1, v1), Field(k2, v2), Field(k3, v3), Field(k4, v4)];
    KeyIndexIs(fs, k, if k == k1 then 0 else if k == k2 then 1 else if k == k3 then 2 else if k == k4 then 3 else 4);
  }

  /** A two-field message is neither a google item nor a responses item, and has no tool_calls. */
  lemma MessageShape(role: Text, content: Json)
    ensures var m := Message(role, content);
      && Get(m, ROLE) == Some(Str(role)) && Get(m, CONTENT) == Some(content)
      && !HasParts(m) && !IsFunctionCall(m) && !IsFunctionOutput(m) && !HasToolCalls(m)
      && Get(m, REASONING_CONTENT).None? 
  {
    hide Get;
    NamesApart();
    Get2(ROLE, Str(role), CONTENT, content, ROLE);
    Get2(ROLE, Str(role), CONTENT, content, CONTENT);
    Get2(ROLE, Str(role), CONTENT, content, PARTS);
    Get2(ROLE, Str(role), CONTENT, content, TYPE);
    Get2(ROLE, Str(role), CONTENT, content, TOOL_CALLS);
    Get2(ROLE, Str(role), CONTENT, content, REASONING_CONTENT);
  }

  /** A string message: user words, or assistant prose joining the run. */
  lemma StepString(st: State, role: Text, text: Text, parse: Text -> Option<Json>)
    requires role == USER || role == ASSISTANT
    ensures Step(st, Message(role, Str(text)), parse) ==
      if role == ASSISTANT then Merge(st, text, []) else PushText(Flush(st), USER, text)
  {
    hide Get, HasParts, IsFunctionCall, IsFunctionOutput, HasToolCalls, Merge, PushText, Flush;
    NamesApart();
    MessageShape(role, Str(text));
    assert text + [] == text;
  }

  /** A block message: what its blocks hold. */
  lemma StepBlockMessage(st: State, role: Text, bs: seq<Json>, parse: Text -> Option<Json>)
    requires role == USER || role == ASSISTANT
    ensures Get(Message(role, Arr(bs)), CONTENT) == Some(Arr(bs))
    ensures Step(st, Message(role, Arr(bs)), parse) == StepBlocks(st, Message(role, Arr(bs)), role, parse)
  {
    hide Get, HasParts, IsFunctionCall, IsFunctionOutput, HasToolCalls, StepBlocks;
    NamesApart();
    MessageShape(role, Arr(bs));
  }

  lemma ReadTextBlock(t: Text, parse: Text -> Option<Json>)
    ensures ReadBlock(TextBlock(t), parse) ==
      Blocks(if t == USER_IMAGE_PLACEHOLDER then [] else [t], [], [], false)
  {
    hide Get;
    NamesApart();
    Get2(TYPE, Str(TEXT), TEXT, Str(t), TYPE);
    Get2(TYPE, Str(TEXT), TEXT, Str(t), TEXT);
  }

  lemma ReadThinkingBlock(t: Text, parse: Text -> Option<Json>)
    ensures ReadBlock(ThinkingBlock(t), parse) ==
      Blocks(if t == USER_IMAGE_PLACEHOLDER then [] else [t], [], [], false)
  {
    hide Get;
    NamesApart();
    Get2(TYPE, Str(THINKING), THINKING, Str(t), TYPE);
    Get2(TYPE, Str(THINKING), THINKING, Str(t), THINKING);
  }

  /** The call as openai's argument text is read, and as anthropic's argument value is. */
  function CallOf(c: Call): Text {
    CallText(c.name, Neutral.Canon(c.args))
  }

  function UseOf(c: Call, parse: Text -> Option<Json>): Text {
    CallText(c.name, CanonicalCallArgs(Some(c.args), parse))
  }

  function CallsOf(cs: seq<Call>): seq<Text> {
    if cs == [] then [] else [CallOf(cs[0])] + CallsOf(cs[1..])
  }

  function UsesOf(cs: seq<Call>, parse: Text -> Option<Json>): seq<Text> {
    if cs == [] then [] else [UseOf(cs[0], parse)] + UsesOf(cs[1..], parse)
  }

  function BodiesOf(rs: seq<ToolReply>): seq<Text> {
    if rs == [] then [] else [rs[0].body] + BodiesOf(rs[1..])
  }

  lemma ReadToolUse(c: Call, parse: Text -> Option<Json>)
    ensures ReadBlock(ToolUse(c), parse) == Blocks([], [UseOf(c, parse)], [], false)
  {
    hide Get;
    NamesApart();
    var id, name := Str(c.id), Str(c.name);
    Get4(TYPE, Str(TOOL_USE), ID, id, NAME, name, INPUT, c.args, TYPE);
    Get4(TYPE, Str(TOOL_USE), ID, id, NAME, name, INPUT, c.args, NAME);
    Get4(TYPE, Str(TOOL_USE), ID, id, NAME, name, INPUT, c.args, INPUT);
  }

  lemma ReadOpenAICall(c: Call, parse: Text -> Option<Json>)
    requires RoundTrips(c.args, parse)
    ensures ToolCall(OpenAICall(c), parse) == [CallOf(c)]
  {
    hide Get;
    NamesApart();
    var name, args := Str(c.name), Str(Stringify(c.args));
    Get2(ID, Str(c.id), FUNCTION, Obj([Field(NAME, name), Field(ARGUMENTS, args)]), FUNCTION);
    Get2(NAME, name, ARGUMENTS, args, NAME);
    Get2(NAME, name, ARGUMENTS, args, ARGUMENTS);
  }

  lemma ReadResultBlock(r: ToolReply, parse: Text -> Option<Json>)
    ensures ReadBlock(ResultBlock(r), parse) == Blocks([], [], [r.body], false)
  {
    hide Get;
    NamesApart();
    Get3(TYPE, Str(TOOL_RESULT), TOOL_USE_ID, Str(r.id), CONTENT, Str(r.body), TYPE);
    Get3(TYPE, Str(TOOL_RESULT), TOOL_USE_ID, Str(r.id), CONTENT, Str(r.body), CONTENT);
  }

  function Join(a: Blocks, b: Blocks): Blocks {
    Blocks(a.texts + b.texts, a.calls + b.calls, a.results + b.results, a.foreign || b.foreign)
  }

  lemma {:induction false} ReadBlocksConcat(a: seq<Json>, b: seq<Json>, parse: Text -> Option<Json>)
    ensures ReadBlocks(a + b, parse) == Join(ReadBlocks(a, parse), ReadBlocks(b, parse))
  {
    hide ReadBlock;
    if a == [] {
      assert a + b == b;
    } else {
      assert (a + b)[1..] == a[1..] + b;
      ReadBlocksConcat(a[1..], b, parse);
    }
  }

  lemma ReadOne(b: Json, parse: Text -> Option<Json>)
    ensures ReadBlocks([b], parse) == ReadBlock(b, parse)
  {
    hide ReadBlock;
    assert [b][1..] == [];
  }

  lemma {:induction false} ReadToolUses(cs: seq<Call>, parse: Text -> Option<Json>)
    ensures ReadBlocks(MapCalls(cs, ToolUse), parse) == Blocks([], UsesOf(cs, parse), [], false)
  {
    if cs != [] {
      hide ReadBlock, ToolUse, UseOf;
      ReadToolUse(cs[0], parse);
      ReadToolUses(cs[1..], parse);
      ReadBlocksConcat([ToolUse(cs[0])], MapCalls(cs[1..], ToolUse), parse);
      ReadOne(ToolUse(cs[0]), parse);
    }
  }

  lemma {:induction false} ReadOpenAICalls(cs: seq<Call>, parse: Text -> Option<Json>)
    requires forall i :: 0 <= i < |cs| ==> RoundTrips(cs[i].args, parse)
    ensures ToolCalls(MapCalls(cs, OpenAICall), parse) == CallsOf(cs)
  {
    if cs != [] {
      hide ToolCall, OpenAICall, CallOf, RoundTrips;
      ReadOpenAICall(cs[0], parse);
      ReadOpenAICalls(cs[1..], parse);
      assert ([OpenAICall(cs[0])] + MapCalls(cs[1..], OpenAICall))[1..] == MapCalls(cs[1..], OpenAICall);
    }
  }

  lemma {:induction false} ReadResults(rs: seq<ToolReply>, parse: Text -> Option<Json>)
    ensures ReadBlocks(MapReplies(rs, ResultBlock), parse) == Blocks([], [], BodiesOf(rs), false)
  {
    if rs != [] {
      hide ReadBlock, ResultBlock;
      ReadResultBlock(rs[0], parse);
      ReadResults(rs[1..], parse);
      ReadBlocksConcat([ResultBlock(rs[0])], MapReplies(rs[1..], ResultBlock), parse);
      ReadOne(ResultBlock(rs[0]), parse);
    }
  }

  // ---- what each rendered item does to the projection ----

  /** The openai message with calls merges the calls alone; its prose is not read. */
  lemma StepOpenAIActs(st: State, item: Item, parse: Text -> Option<Json>)
    requires item.Acts? && GoodItem(item, parse)
    ensures Step(st, OpenAIRender(item)[0], parse) == Merge(st, [], CallsOf(item.calls))
  {
    hide Get, Merge, ToolCalls, MapCalls, CallsOf, StepBlocks, StepPlain, StepGoogle, StepTool, RoundTrips, OpenAICall;
    NamesApart();
    var content := if item.prose.Some? then Str(item.prose.value) else Null;
    var calls := Arr(MapCalls(item.calls, OpenAICall));
    Get3(ROLE, Str(ASSISTANT), CONTENT, content, TOOL_CALLS, calls, ROLE);
    Get3(ROLE, Str(ASSISTANT), CONTENT, content, TOOL_CALLS, calls, CONTENT);
    Get3(ROLE, Str(ASSISTANT), CONTENT, content, TOOL_CALLS, calls, TOOL_CALLS);
    Get3(ROLE, Str(ASSISTANT), CONTENT, content, TOOL_CALLS, calls, PARTS);
    Get3(ROLE, Str(ASSISTANT), CONTENT, content, TOOL_CALLS, calls, TYPE);
    ReadOpenAICalls(item.calls, parse);
  }

  lemma StepToolMessage(st: State, r: ToolReply, parse: Text -> Option<Json>)
    ensures Step(st, ToolMessage(r), parse) == Push(Flush(st), TextTurn(TOOL, r.body))
  {
    hide Get, Merge, StepBlocks, StepPlain, StepGoogle, Flush, TextTurn;
    NamesApart();
    var role, id, body := Str(TOOL), Str(r.id), Str(r.body);
    Get3(ROLE, role, TOOL_CALL_ID, id, CONTENT, body, ROLE);
    Get3(ROLE, role, TOOL_CALL_ID, id, CONTENT, body, CONTENT);
    Get3(ROLE, role, TOOL_CALL_ID, id, CONTENT, body, PARTS);
    Get3(ROLE, role, TOOL_CALL_ID, id, CONTENT, body, TYPE);
  }

  /** Tool messages one by one are the results of one block message. */
  lemma {:induction false} RunToolMessages(st: State, rs: seq<ToolReply>, parse: Text -> Option<Json>)
    requires rs != []
    ensures Run(st, MapReplies(rs, ToolMessage), parse) == PushTools(Flush(st), BodiesOf(rs))
    decreases |rs|
  {
    hide Step, TextTurn;
    var head := Push(Flush(st), TextTurn(TOOL, rs[0].body));
    StepToolMessage(st, rs[0], parse);
    assert ([ToolMessage(rs[0])] + MapReplies(rs[1..], ToolMessage))[1..] == MapReplies(rs[1..], ToolMessage);
    assert ([rs[0].body] + BodiesOf(rs[1..]))[1..] == BodiesOf(rs[1..]);
    if rs[1..] != [] {
      RunToolMessages(head, rs[1..], parse);
      assert Flush(head) == head;
    }
  }

  // ---- what each item does on both wires ----

  /** The text the anthropic wire keeps of an assistant block. */
  function Kept(t: Text): Text {
    if t == USER_IMAGE_PLACEHOLDER then [] else t
  }

  function TextsOf(t: Option<Text>): seq<Text> {
    if t.Some? && t.value != USER_IMAGE_PLACEHOLDER then [t.value] else []
  }

  lemma ConcatTexts(t: Text)
    ensures Concat(TextsOf(Some(t))) == Kept(t) && t + [] == t
  {
    assert [t][1..] == [];
  }

  /** A one-block text message keeps its text unless it is the placeholder. */
  lemma StepTextBlock(st: State, role: Text, t: Text, parse: Text -> Option<Json>)
    requires role == USER || role == ASSISTANT
    ensures Step(st, Message(role, Arr([TextBlock(t)])), parse) ==
      if role == ASSISTANT then Merge(st, Kept(t), [])
      else if t == USER_IMAGE_PLACEHOLDER then Flush(st)
      else PushText(Flush(st), USER, t)
  {
    hide Step, ReadBlock, TextBlock, Message, Get, Merge, PushText, Flush;
    StepBlockMessage(st, role, [TextBlock(t)], parse);
    ReadOne(TextBlock(t), parse);
    ReadTextBlock(t, parse);
    ConcatTexts(t);
    NamesApart();
  }

  lemma StepThinking(st: State, t: Text, parse: Text -> Option<Json>)
    ensures Step(st, Message(ASSISTANT, Arr([ThinkingBlock(t)])), parse) == Merge(st, Kept(t), [])
  {
    hide Step, ReadBlock, ThinkingBlock, Message, Get, Merge;
    StepBlockMessage(st, ASSISTANT, [ThinkingBlock(t)], parse);
    ReadOne(ThinkingBlock(t), parse);
    ReadThinkingBlock(t, parse);
    ConcatTexts(t);
  }

  lemma ReadOptional(t: Option<Text>, parse: Text -> Option<Json>)
    ensures ReadBlocks(Optional(t, TextBlock), parse) == Blocks(TextsOf(t), [], [], false)
  {
    if t.Some? {
      hide ReadBlock, TextBlock;
      ReadOne(TextBlock(t.value), parse);
      ReadTextBlock(t.value, parse);
    }
  }

  lemma ReadActs(prose: Option<Text>, calls: seq<Call>, parse: Text -> Option<Json>)
    ensures var bs := Optional(prose, TextBlock) + MapCalls(calls, ToolUse);
      ReadBlocks(bs, parse) == Blocks(TextsOf(prose), UsesOf(calls, parse), [], false)
  {
    hide Optional, MapCalls, UsesOf, ReadBlocks, TextsOf;
    ReadOptional(prose, parse);
    ReadToolUses(calls, parse);
    ReadBlocksConcat(Optional(prose, TextBlock), MapCalls(calls, ToolUse), parse);
    assert TextsOf(prose) + [] == TextsOf(prose) && [] + UsesOf(calls, parse) == UsesOf(calls, parse);
  }

  lemma ReadReplies(rs: seq<ToolReply>, followUp: Option<Text>, parse: Text -> Option<Json>)
    ensures var bs := MapReplies(rs, ResultBlock) + Optional(followUp, TextBlock);
      ReadBlocks(bs, parse) == Blocks(TextsOf(followUp), [], BodiesOf(rs), false)
  {
    hide Optional, MapReplies, BodiesOf, ReadBlocks, TextsOf;
    ReadResults(rs, parse);
    ReadOptional(followUp, parse);
    ReadBlocksConcat(MapReplies(rs, ResultBlock), Optional(followUp, TextBlock), parse);
    assert [] + TextsOf(followUp) == TextsOf(followUp) && BodiesOf(rs) + [] == BodiesOf(rs);
  }

  /** Prose beside the calls is text of the run; the calls are read from their argument values. */
  lemma StepAnthropicActs(st: State, prose: Option<Text>, calls: seq<Call>, parse: Text -> Option<Json>)
    ensures var bs := Optional(prose, TextBlock) + MapCalls(calls, ToolUse);
      Step(st, Message(ASSISTANT, Arr(bs)), parse) == Merge(st, Concat(TextsOf(prose)) + [], UsesOf(calls, parse))
  {
    hide Step, ReadBlocks, Optional, MapCalls, UsesOf, TextsOf, Message, Get, Merge, Concat;
    var bs := Optional(prose, TextBlock) + MapCalls(calls, ToolUse);
    StepBlockMessage(st, ASSISTANT, bs, parse);
    ReadActs(prose, calls, parse);
  }

  /** One message of results and a user text is the same results, and the user text unless it is the placeholder. */
  lemma StepAnthropicReplies(st: State, rs: seq<ToolReply>, followUp: Option<Text>, parse: Text -> Option<Json>)
    requires rs != []
    ensures var bs := MapReplies(rs, ResultBlock) + Optional(followUp, TextBlock);
      var results := PushTools(Flush(st), BodiesOf(rs));
      Step(st, Message(USER, Arr(bs)), parse) ==
        if TextsOf(followUp) != [] then PushText(results, USER, followUp.value) else results
  {
    hide Step, ReadBlocks, Optional, MapReplies, Message, Get, PushText, Flush, PushTools, Concat;
    var bs := MapReplies(rs, ResultBlock) + Optional(followUp, TextBlock);
    StepBlockMessage(st, USER, bs, parse);
    ReadReplies(rs, followUp, parse);
    if followUp.Some? {
      ConcatTexts(followUp.value);
    }
    NamesApart();
  }

  lemma Run2(st: State, a: Json, b: Json, parse: Text -> Option<Json>)
    ensures Run(st, [a] + [b], parse) == Step(Step(st, a, parse), b, parse)
  {
    hide Step, Run;
    RunAppend(st, [a], [b], parse);
    RunOne(st, a, parse);
    RunOne(Step(st, a, parse), b, parse);
  }

  lemma FlushIsIdle(st: State)
    ensures Flush(st).pending.None?
  {
  }

  lemma {:induction false} PushedIsIdle(st: State, bodies: seq<Text>)
    requires st.pending.None?
    ensures Flush(PushTools(st, bodies)) == PushTools(st, bodies)
    decreases |bodies|
  {
    if bodies != [] {
      PushedIsIdle(Push(st, TextTurn(TOOL, bodies[0])), bodies[1..]);
    }
  }

  /** The openai messages of a reply: the results, then the user text. */
  lemma RunOpenAIReplies(st: State, rs: seq<ToolReply>, followUp: Option<Text>, parse: Text -> Option<Json>)
    requires rs != []
    ensures var results := PushTools(Flush(st), BodiesOf(rs));
      Run(st, OpenAIRender(Replies(rs, followUp)), parse) ==
        if followUp.Some? then PushText(results, USER, followUp.value) else results
  {
    hide Step, Run, Message, Flush, PushText, PushTools, BodiesOf;
    RunToolMessages(st, rs, parse);
    FlushIsIdle(st);
    var results := PushTools(Flush(st), BodiesOf(rs));
    RunAppend(st, MapReplies(rs, ToolMessage), Optional(followUp, x => Message(USER, Str(x))), parse);
    if followUp.Some? {
      RunOne(results, Message(USER, Str(followUp.value)), parse);
      StepString(results, USER, followUp.value, parse);
      PushedIsIdle(Flush(st), BodiesOf(rs));
      NamesApart();
    } else {
      assert MapReplies(rs, ToolMessage) + [] == MapReplies(rs, ToolMessage);
    }
  }
}
