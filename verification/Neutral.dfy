/** The wire-neutral projection of a message list onto conversation turns. */
module Neutral {
  import opened Texts
  import opened Json
  import opened Printing
  import opened Names

  const MAX_TURN_FRAGS := 64
  const USER_IMAGE_PLACEHOLDER: Text := Lit("(image omitted: ") + Lit("model does not ") + Lit("support images)")
  const MARKER_OPEN: Text := Lit("[model changed: ")
  const FOREIGN: Text := [0] + Lit("foreign:")
  const RAW: Text := Lit("raw")
  const UNKNOWN_ROLE: Text := Lit("?")

  /** A fragment hash, identified with what it hashes. */
  datatype Frag = Frag(kind: Text, text: Text, calls: seq<Text>)

  datatype Turn = Turn(kind: Text, text: Option<Text>, calls: Option<seq<Text>>, frags: seq<Frag>)

  /** The assistant run being merged. */
  datatype Pending = Pending(text: Text, calls: seq<Text>, frags: seq<Frag>)

  datatype State = State(turns: seq<Turn>, pending: Option<Pending>)

  function Canon(v: Json): Text {
    Print(v, Printing.Canon)
  }

  // ---- the text and the calls a message contributes ----

  /** typeof v === "object" && v !== null. */
  predicate IsObject(v: Json) {
    v.Obj? || v.Arr?
  }

  function StrOf(v: Option<Json>): Option<Text> {
    match v case Some(Str(s)) => Some(s) case _ => None
  }

  predicate Nullish(v: Option<Json>) {
    v.None? || v.value.Null?
  }

  function Concat(ts: seq<Text>): Text {
    if ts == [] then [] else ts[0] + Concat(ts[1..])
  }

  /** String(v) for a JSON value. */
  function JsString(v: Json): Text
    decreases v
  {
    match v
    case Null => Lit("null")
    case Bool(b) => if b then Lit("true") else Lit("false")
    case Num(d) => NumText(d, Plain)
    case Str(s) => s
    case Arr(es) => JoinElements(es)
    case Obj(_) => Lit("[object Object]")
  }

  function JoinElements(es: seq<Json>): Text
    decreases es
  {
    if es == [] then []
    else
      var head := if es[0].Null? then [] else JsString(es[0]);
      if |es| == 1 then head else head + [44] + JoinElements(es[1..])
  }

  /** String(name ?? ""). */
  function NameText(v: Option<Json>): Text {
    if Nullish(v) then [] else JsString(v.value)
  }

  /** Tool arguments as sorted JSON, from a JSON string or a value; JSON.parse is a parameter. */
  function CanonicalCallArgs(args: Option<Json>, parse: Text -> Option<Json>): Text {
    if Nullish(args) then Canon(Obj([]))
    else
      match args.value
      case Str(s) => (match parse(s) case Some(v) => Canon(v) case None => Canon(Str(s)))
      case v => Canon(v)
  }

  function CallText(name: Text, args: Text): Text {
    name + [0] + args
  }

  function BlockText(block: Json): Option<Text> {
    match StrOf(Get(block, TYPE))
    case Some(t) =>
      if t == TEXT || t == INPUT_TEXT || t == OUTPUT_TEXT then
        Some(if StrOf(Get(block, TEXT)).Some? then StrOf(Get(block, TEXT)).value else [])
      else if t == THINKING || t == REDACTED_THINKING then
        Some(if StrOf(Get(block, THINKING)).Some? then StrOf(Get(block, THINKING)).value else [])
      else None
    case None => None
  }

  function BlockOrCanon(block: Json): Text {
    match BlockText(block) case Some(t) => t case None => Canon(block)
  }

  function BlocksText(bs: seq<Json>): Text {
    if bs == [] then [] else BlockOrCanon(bs[0]) + BlocksText(bs[1..])
  }

  function ToolResultText(content: Option<Json>): Text {
    match content
    case None => []
    case Some(Str(s)) => s
    case Some(Arr(bs)) => BlocksText(bs)
    case Some(v) => Canon(v)
  }

  /** What a content block list holds. */
  datatype Blocks = Blocks(texts: seq<Text>, calls: seq<Text>, results: seq<Text>, foreign: bool)

  function ReadBlock(b: Json, parse: Text -> Option<Json>): Blocks {
    if !IsObject(b) then Blocks([], [], [], true)
    else if Get(b, TYPE) == Some(Str(TOOL_USE)) then
      Blocks([], [CallText(NameText(Get(b, NAME)), CanonicalCallArgs(Get(b, INPUT), parse))], [], false)
    else if Get(b, TYPE) == Some(Str(TOOL_RESULT)) then Blocks([], [], [ToolResultText(Get(b, CONTENT))], false)
    else
      match BlockText(b)
      case Some(t) => Blocks(if t == USER_IMAGE_PLACEHOLDER then [] else [t], [], [], false)
      case None => Blocks([], [], [], true)
  }

  function ReadBlocks(bs: seq<Json>, parse: Text -> Option<Json>): Blocks {
    if bs == [] then Blocks([], [], [], false)
    else
      var h, t := ReadBlock(bs[0], parse), ReadBlocks(bs[1..], parse);
      Blocks(h.texts + t.texts, h.calls + t.calls, h.results + t.results, h.foreign || t.foreign)
  }

  /** What a google parts list holds; a later functionResponse overrides an earlier one. */
  datatype Parts = Parts(texts: seq<Text>, calls: seq<Text>, toolBody: Option<Text>)

  function ResponseBody(fr: Json): Text {
    match Get(fr, RESPONSE)
    case Some(Str(s)) => s
    case Some(Obj(fs)) => if |fs| == 1 && fs[0].val.Str? then fs[0].val.s else Canon(Obj(fs))
    case r => Canon(if Nullish(r) then fr else r.value)
  }

  function ReadPart(p: Json): Parts {
    if !IsObject(p) then Parts([], [], None)
    else
      var t := StrOf(Get(p, TEXT));
      var fc, fr := Get(p, FUNCTION_CALL_KEY), Get(p, FUNCTION_RESPONSE_KEY);
      Parts(if t.Some? && t.value != USER_IMAGE_PLACEHOLDER then [t.value] else [],
            if fc.Some? && IsObject(fc.value)
            then [CallText(NameText(Get(fc.value, NAME)),
                           Canon(if Nullish(Get(fc.value, ARGS)) then Obj([]) else Get(fc.value, ARGS).value))]
            else [],
            if fr.Some? && IsObject(fr.value) then Some(ResponseBody(fr.value)) else None)
  }

  function ReadParts(ps: seq<Json>): Parts {
    if ps == [] then Parts([], [], None)
    else
      var h, t := ReadPart(ps[0]), ReadParts(ps[1..]);
      Parts(h.texts + t.texts, h.calls + t.calls, if t.toolBody.Some? then t.toolBody else h.toolBody)
  }

  function ToolCall(tc: Json, parse: Text -> Option<Json>): seq<Text> {
    if !IsObject(tc) then []
    else
      var f := match Get(tc, FUNCTION) case Some(f) => f case None => Null;
      [CallText(NameText(Get(f, NAME)), CanonicalCallArgs(Get(f, ARGUMENTS), parse))]
  }

  function ToolCalls(tcs: seq<Json>, parse: Text -> Option<Json>): seq<Text> {
    if tcs == [] then [] else ToolCall(tcs[0], parse) + ToolCalls(tcs[1..], parse)
  }

  // ---- state changes ----

  function Take(fs: seq<Frag>): seq<Frag> {
    if |fs| <= MAX_TURN_FRAGS then fs else fs[..MAX_TURN_FRAGS]
  }

  /** The turn a finished run becomes: thinking and prose are dropped once it has calls. */
  function RunTurn(p: Pending): Turn {
    if p.calls == [] then Turn(ASSISTANT, Some(p.text), None, Take(p.frags))
    else Turn(ASSISTANT, None, Some(p.calls), Take(p.frags))
  }

  /** flushAssistant. */
  function Flush(st: State): State {
    match st.pending
    case None => st
    case Some(p) => State(st.turns + [RunTurn(p)], None)
  }

  function Push(st: State, t: Turn): State {
    State(st.turns + [t], st.pending)
  }

  function TextTurn(kind: Text, text: Text): Turn {
    Turn(kind, Some(text), None, [Frag(kind, text, [])])
  }

  /** /^\[model changed: [^\]]*\]$/ */
  predicate ClientMarker(t: Text) {
    && |t| >= |MARKER_OPEN| + 1 && StartsWith(t, MARKER_OPEN) && t[|t| - 1] == 93
    && forall i :: |MARKER_OPEN| <= i < |t| - 1 ==> t[i] != 93
  }

  /** pushTextTurn: client machinery notices are not user words. */
  function PushText(st: State, kind: Text, text: Text): State {
    if kind == USER && ClientMarker(text) then st else Push(st, TextTurn(kind, text))
  }

  function PushTools(st: State, bodies: seq<Text>): State
    decreases |bodies|
  {
    if bodies == [] then st else PushTools(Push(st, TextTurn(TOOL, bodies[0])), bodies[1..])
  }

  /** An assistant message joins the pending run, or starts one. */
  function Merge(st: State, text: Text, calls: seq<Text>): State {
    var p := if st.pending.Some? then st.pending.value else Pending([], [], []);
    State(st.turns, Some(Pending(p.text + text, p.calls + calls, p.frags + [Frag(ASSISTANT, text, calls)])))
  }

  function RoleOf(m: Json, otherwise: Text): Text {
    match StrOf(Get(m, ROLE)) case Some(r) => r case None => otherwise
  }

  function GoogleRole(m: Json): Text {
    if Get(m, ROLE) == Some(Str(MODEL)) then ASSISTANT else RoleOf(m, USER)
  }

  predicate HasParts(m: Json) {
    Get(m, PARTS).Some? && Get(m, PARTS).value.Arr?
  }

  predicate IsFunctionCall(m: Json) {
    Get(m, TYPE) == Some(Str(FUNCTION_CALL)) && StrOf(Get(m, NAME)).Some?
  }

  predicate IsFunctionOutput(m: Json) {
    Get(m, TYPE) == Some(Str(FUNCTION_CALL_OUTPUT)) || Get(m, TYPE) == Some(Str(LOCAL_SHELL_CALL_OUTPUT))
  }

  predicate HasToolCalls(m: Json) {
    Get(m, TOOL_CALLS).Some? && Get(m, TOOL_CALLS).value.Arr?
  }

  /** content is a string, null or absent, and there are no tool_calls. */
  predicate IsPlain(m: Json) {
    (Nullish(Get(m, CONTENT)) || Get(m, CONTENT).value.Str?) && !HasToolCalls(m)
  }

  predicate HasBlocks(m: Json) {
    Get(m, CONTENT).Some? && Get(m, CONTENT).value.Arr?
  }

  function StepGoogle(st: State, m: Json): State
    requires HasParts(m)
  {
    var role := GoogleRole(m);
    var ps := ReadParts(Get(m, PARTS).value.elems);
    if role == ASSISTANT then Merge(st, Concat(ps.texts), ps.calls)
    else
      var s1 := Flush(st);
      var s2 := if ps.toolBody.Some? then Push(s1, TextTurn(TOOL, ps.toolBody.value)) else s1;
      if ps.calls != [] && ps.toolBody.None? then
        Push(s2, Turn(ASSISTANT, None, Some(ps.calls), [Frag(ASSISTANT, [], ps.calls)]))
      else if ps.texts != [] then PushText(s2, role, Concat(ps.texts))
      else s2
  }

  function StepFunctionCall(st: State, m: Json, parse: Text -> Option<Json>): State
    requires IsFunctionCall(m)
  {
    var call := CallText(StrOf(Get(m, NAME)).value, CanonicalCallArgs(Get(m, ARGUMENTS), parse));
    if st.pending.Some? then Merge(st, [], [call])
    else Push(st, Turn(ASSISTANT, None, Some([call]), [Frag(ASSISTANT, [], [call])]))
  }

  function StepFunctionOutput(st: State, m: Json): State {
    var out := Get(m, OUTPUT);
    var body := match StrOf(out) case Some(s) => s case None => Canon(if Nullish(out) then Str([]) else out.value);
    Push(Flush(st), TextTurn(TOOL, body))
  }

  function StepTool(st: State, m: Json): State {
    var content := Get(m, CONTENT);
    Push(Flush(st), TextTurn(TOOL, if Nullish(content) then [] else ToolResultText(content)))
  }

  function StepPlain(st: State, m: Json, role: Text): State {
    var content := StrOf(Get(m, CONTENT));
    var text := if content.Some? then content.value else [];
    if role == ASSISTANT then
      var reasoning := StrOf(Get(m, REASONING_CONTENT));
      Merge(st, text + (if reasoning.Some? then reasoning.value else []), [])
    else PushText(Flush(st), role, text)
  }

  function StepBlocks(st: State, m: Json, role: Text, parse: Text -> Option<Json>): State
    requires HasBlocks(m)
  {
    var content := Get(m, CONTENT).value;
    var bs := ReadBlocks(content.elems, parse);
    var text := Concat(bs.texts);
    if role == ASSISTANT then Merge(st, text + (if bs.foreign then FOREIGN + Canon(content) else []), bs.calls)
    else
      var s1 := PushTools(Flush(st), bs.results);
      if bs.results != [] then (if bs.texts != [] && role == USER then PushText(s1, USER, text) else s1)
      else if bs.texts != [] then PushText(s1, role, text)
      else if role == USER && bs.foreign then PushText(s1, USER, Canon(content))
      else s1
  }

  /** One turn of the projection loop. */
  function Step(st: State, m: Json, parse: Text -> Option<Json>): State {
    if !IsObject(m) then Push(st, TextTurn(RAW, Canon(m)))
    else if HasParts(m) then StepGoogle(st, m)
    else if IsFunctionCall(m) then StepFunctionCall(st, m, parse)
    else if IsFunctionOutput(m) then StepFunctionOutput(st, m)
    else
      var role := RoleOf(m, UNKNOWN_ROLE);
      if role == TOOL then StepTool(st, m)
      else if IsPlain(m) then StepPlain(st, m, role)
      else if HasBlocks(m) then StepBlocks(st, m, role, parse)
      else if HasToolCalls(m) && role == ASSISTANT then
        Merge(st, [], ToolCalls(Get(m, TOOL_CALLS).value.elems, parse))
      else Push(Flush(st), TextTurn(role, Canon(m)))
  }

  function Run(st: State, list: seq<Json>, parse: Text -> Option<Json>): State
    decreases |list|
  {
    if list == [] then st else Run(Step(st, list[0], parse), list[1..], parse)
  }

  // ---- the whole projection ----

  predicate IsSystem(m: Json) {
    m.Obj? && (Get(m, ROLE) == Some(Str(SYSTEM)) || Get(m, ROLE) == Some(Str(DEVELOPER)))
  }

  /** How many leading system or developer messages there are. */
  function SystemRun(messages: seq<Json>): (n: nat)
    ensures n <= |messages|
    ensures forall i :: 0 <= i < n ==> IsSystem(messages[i])
    ensures n < |messages| ==> !IsSystem(messages[n])
  {
    if messages == [] || !IsSystem(messages[0]) then 0 else 1 + SystemRun(messages[1..])
  }

  const Start := State([], None)

  /** The state the loop ends in, before the last flush. */
  function EndState(messages: seq<Json>, parse: Text -> Option<Json>): State {
    Run(Start, messages[SystemRun(messages)..], parse)
  }

  /** neutralTurns. */
  function Project(messages: seq<Json>, parse: Text -> Option<Json>): seq<Turn> {
    Flush(EndState(messages, parse)).turns
  }

  lemma {:induction false} RunAppend(st: State, a: seq<Json>, b: seq<Json>, parse: Text -> Option<Json>)
    ensures Run(st, a + b, parse) == Run(Run(st, a, parse), b, parse)
    decreases |a|
  {
    hide Step;
    if a == [] {
      assert a + b == b;
    } else {
      assert (a + b)[1..] == a[1..] + b;
      RunAppend(Step(st, a[0], parse), a[1..], b, parse);
    }
  }

  /** The projection loop: strip the leading system run, fold every message, flush what is pending. */
  method NeutralTurns(messages: seq<Json>, parse: Text -> Option<Json>) returns (turns: seq<Turn>)
    ensures turns == Project(messages, parse)
  {
    hide Step;
    var i := 0;
    while i < |messages| && IsSystem(messages[i])
      invariant 0 <= i <= |messages|
      invariant i <= SystemRun(messages)
    {
      i := i + 1;
    }
    ghost var list := messages[i..];
    var st := Start;
    ghost var k := 0;
    while i < |messages|
      invariant i == SystemRun(messages) + k && 0 <= k <= |list| && i <= |messages|
      invariant list == messages[SystemRun(messages)..]
      invariant st == Run(Start, list[..k], parse)
    {
      assert list[..k + 1] == list[..k] + [messages[i]];
      RunAppend(Start, list[..k], [messages[i]], parse);
      RunOne(st, messages[i], parse);
      st := Step(st, messages[i], parse);
      i, k := i + 1, k + 1;
    }
    assert list[..k] == list;
    turns := Flush(st).turns;
  }

  lemma RunOne(st: State, m: Json, parse: Text -> Option<Json>)
    ensures Run(st, [m], parse) == Step(st, m, parse)
  {
    hide Step;
    assert [m][1..] == [];
  }

  /** neutralTurnCanonical: the hashing input of a turn. */
  function TurnCanonical(t: Turn): Text {
    if t.calls.Some? then Canon(Obj([Field(Lit("calls"), Arr(Strings(t.calls.value))), Field(ROLE, Str(t.kind))]))
    else Canon(Obj([Field(CONTENT, Str(if t.text.Some? then t.text.value else [])), Field(ROLE, Str(t.kind))]))
  }

  function Strings(ts: seq<Text>): seq<Json> {
    if ts == [] then [] else [Str(ts[0])] + Strings(ts[1..])
  }
}
