/** Exactly when a conversation has on another wire the identity it has on the openai wire. */
module NeutralIdentity {
  import opened Texts
  import opened Seqs
  import opened Json
  import opened Printing
  import opened Names
  import opened Neutral
  import opened NeutralCanonical
  import opened NeutralWires
  import opened NeutralTalk
  import opened NeutralFourWires

  // ---- where the wires part ----

  /** User words that are the image placeholder: a turn on openai, nothing elsewhere. */
  predicate Stray(item: Item) {
    match item
    case Says(t) => t == PLACEHOLDER
    case Replies(_, followUp) => followUp == Some(PLACEHOLDER)
    case _ => false
  }

  predicate ByAssistant(item: Item) {
    item.Answers? || item.Acts?
  }

  /**
   * Arguments the wire prints as openai does: responses always, google unless they are null, anthropic unless
   * they are null or a string that parses to something printed differently.
   */
  predicate ArgsAgree(args: Json, line: Line, parse: Text -> Option<Json>) {
    match line
    case AnthropicLine =>
      !args.Null? && (args.Str? && parse(args.s).Some? ==> Neutral.Canon(parse(args.s).value) == Neutral.Canon(args))
    case GoogleLine => !args.Null?
    case _ => true
  }

  predicate CallsAgree(calls: seq<Call>, line: Line, parse: Text -> Option<Json>) {
    forall i :: 0 <= i < |calls| ==> ArgsAgree(calls[i].args, line, parse)
  }

  predicate AnyActs(run: seq<Item>) {
    exists i :: 0 <= i < |run| && run[i].Acts?
  }

  /** The run starts with words, so that on responses the calls behind them join one turn. */
  predicate OpensWithWords(run: seq<Item>) {
    run != [] && (run[0].Answers? || (run[0].Acts? && run[0].prose.Some?))
  }

  predicate IsOneCall(run: seq<Item>) {
    |run| == 1 && run[0].Acts? && run[0].prose.None? && |run[0].calls| == 1
  }

  /**
   * All arguments print alike, the placeholder is an answer only beside a call, and on responses the run opens
   * with words or is a single call.
   */
  predicate RunAgrees(run: seq<Item>, line: Line, parse: Text -> Option<Json>) {
    && (forall i :: 0 <= i < |run| && run[i].Acts? ==> CallsAgree(run[i].calls, line, parse))
    && (AnyActs(run) || forall i :: 0 <= i < |run| ==> run[i] != Answers(PLACEHOLDER))
    && (line == ResponsesLine ==> OpensWithWords(run) || IsOneCall(run))
  }

  /** Items k to e are an assistant run, and no longer one. */
  predicate IsRun(items: seq<Item>, k: nat, e: nat) {
    && k < e <= |items| && (forall i :: k <= i < e ==> ByAssistant(items[i]))
    && (k > 0 ==> !ByAssistant(items[k - 1])) && (e < |items| ==> !ByAssistant(items[e]))
  }

  ghost predicate WiresAgree(items: seq<Item>, line: Line, parse: Text -> Option<Json>) {
    && (forall i :: 0 <= i < |items| ==> !Stray(items[i]))
    && (forall k: nat, e: nat :: IsRun(items, k, e) ==> RunAgrees(items[k..e], line, parse))
  }

  // ---- a conversation, run by run ----

  function RunHead(items: seq<Item>): (k: nat)
    ensures k <= |items| && (forall i :: 0 <= i < k ==> ByAssistant(items[i]))
    ensures k < |items| ==> !ByAssistant(items[k])
  {
    if items == [] || !ByAssistant(items[0]) then 0 else 1 + RunHead(items[1..])
  }

  function Turns(items: seq<Item>, line: Line, parse: Text -> Option<Json>): seq<Turn> {
    Spoken(Moves(items, line, parse))
  }

  lemma {:induction false} MovesConcat(a: seq<Item>, b: seq<Item>, line: Line, parse: Text -> Option<Json>)
    ensures Moves(a + b, line, parse) == Moves(a, line, parse) + Moves(b, line, parse)
  {
    hide ItemMoves;
    if a == [] {
      assert a + b == b;
    } else {
      assert (a + b)[1..] == a[1..] + b;
      MovesConcat(a[1..], b, line, parse);
    }
  }

  lemma {:induction false} RunLengthConcat(a: seq<Move>, b: seq<Move>)
    requires b == [] || !OfRun(b[0])
    ensures RunLength(a + b) == RunLength(a)
  {
    if a == [] {
      assert a + b == b;
    } else {
      assert (a + b)[1..] == a[1..] + b;
      RunLengthConcat(a[1..], b);
    }
  }

  /** The turn a run of moves opens with. */
  function FirstRun(ms: seq<Move>, k: nat): Turn
    requires k <= |ms|
  {
    RunOfMoves(WordsOf(ms[..k]), CallsIn(ms[..k]), FragsOf(ms[..k]))
  }

  lemma SpokenRun(ms: seq<Move>)
    requires ms != [] && ms[0].Adds?
    ensures var k := RunLength(ms); k > 0 && Spoken(ms) == [FirstRun(ms, k)] + Spoken(ms[k..])
  {
    hide RunOfMoves, WordsOf, CallsIn, FragsOf, Notice;
  }

  /** The turn of a move that is read alone, if it makes one. */
  function AloneTurns(m: Move): seq<Turn> {
    Spoken([m])
  }

  lemma SpokenAlone(ms: seq<Move>)
    requires ms != [] && !ms[0].Adds?
    ensures Spoken(ms) == AloneTurns(ms[0]) + Spoken(ms[1..])
  {
    hide Notice;
    assert [ms[0]][1..] == [];
  }

  /** Turns come apart in front of whatever does not belong to a run. */
  lemma {:induction false} SpokenConcat(a: seq<Move>, b: seq<Move>)
    requires b == [] || !OfRun(b[0])
    ensures Spoken(a + b) == Spoken(a) + Spoken(b)
    decreases |a|
  {
    hide Spoken, FirstRun, AloneTurns, RunLength;
    if a == [] {
      NothingIsSpoken();
      assert a + b == b && [] + Spoken(b) == Spoken(b);
    } else if a[0].Adds? {
      RunLengthConcat(a, b);
      var k := RunLength(a);
      RunIsSome(a);
      SpokenRun(a);
      SpokenRun(a + b);
      assert (a + b)[..k] == a[..k] && (a + b)[k..] == a[k..] + b;
      SameFirstRun(a, b, k);
      SpokenConcat(a[k..], b);
      Associate([FirstRun(a, k)], Spoken(a[k..]), Spoken(b));
    } else {
      assert (a + b)[1..] == a[1..] + b;
      SpokenAlone(a);
      SpokenAlone(a + b);
      SpokenConcat(a[1..], b);
      Associate(AloneTurns(a[0]), Spoken(a[1..]), Spoken(b));
    }
  }

  lemma SameFirstRun(a: seq<Move>, b: seq<Move>, k: nat)
    requires k <= |a| && (a + b)[..k] == a[..k]
    ensures FirstRun(a + b, k) == FirstRun(a, k)
  {
  }

  lemma NothingIsSpoken()
    ensures Spoken([]) == []
  {
  }

  lemma RunIsSome(ms: seq<Move>)
    requires ms != [] && OfRun(ms[0])
    ensures RunLength(ms) > 0
  {
  }

  /** And behind whatever ends one. */
  lemma {:induction false} SpokenBehind(a: seq<Move>, b: seq<Move>)
    requires forall i :: 0 <= i < |a| ==> !OfRun(a[i])
    ensures Spoken(a + b) == Spoken(a) + Spoken(b)
    decreases |a|
  {
    hide Spoken, AloneTurns;
    if a == [] {
      NothingIsSpoken();
      assert a + b == b && [] + Spoken(b) == Spoken(b);
    } else {
      assert (a + b)[1..] == a[1..] + b;
      SpokenAlone(a);
      SpokenAlone(a + b);
      SpokenBehind(a[1..], b);
      Associate(AloneTurns(a[0]), Spoken(a[1..]), Spoken(b));
    }
  }

  predicate Good(items: seq<Item>, parse: Text -> Option<Json>) {
    forall i :: 0 <= i < |items| ==> GoodItem(items[i], parse)
  }

  predicate AllByAssistant(items: seq<Item>) {
    forall i :: 0 <= i < |items| ==> ByAssistant(items[i])
  }

  lemma {:induction false} ResultsOutsideRuns(rs: seq<ToolReply>)
    ensures |EachResult(rs)| == |rs| && forall i :: 0 <= i < |rs| ==> !OfRun(EachResult(rs)[i])
  {
    if rs != [] {
      ResultsOutsideRuns(rs[1..]);
    }
  }

  lemma UserItemMoves(item: Item, line: Line, parse: Text -> Option<Json>)
    requires !ByAssistant(item) && GoodItem(item, parse)
    ensures var ms := ItemMoves(item, line, parse); ms != [] && forall i :: 0 <= i < |ms| ==> !OfRun(ms[i])
  {
    if item.Replies? {
      hide EachResult;
      ResultsOutsideRuns(item.replies);
    }
  }

  lemma OneItem(item: Item, line: Line, parse: Text -> Option<Json>)
    ensures Moves([item], line, parse) == ItemMoves(item, line, parse)
  {
    hide ItemMoves;
    assert [item][1..] == [];
    assert ItemMoves(item, line, parse) + [] == ItemMoves(item, line, parse);
  }

  lemma UserSplit(items: seq<Item>, line: Line, parse: Text -> Option<Json>)
    requires items != [] && !ByAssistant(items[0]) && GoodItem(items[0], parse)
    ensures Turns(items, line, parse) == Spoken(ItemMoves(items[0], line, parse)) + Turns(items[1..], line, parse)
  {
    hide ItemMoves, Spoken, GoodItem;
    UserItemMoves(items[0], line, parse);
    SpokenBehind(ItemMoves(items[0], line, parse), Moves(items[1..], line, parse));
  }

  lemma RunSplit(items: seq<Item>, k: nat, line: Line, parse: Text -> Option<Json>)
    requires k <= |items| && Good(items, parse) && (k < |items| ==> !ByAssistant(items[k]))
    ensures Turns(items, line, parse) == Turns(items[..k], line, parse) + Turns(items[k..], line, parse)
  {
    hide ItemMoves, Spoken, GoodItem;
    assert items == items[..k] + items[k..];
    MovesConcat(items[..k], items[k..], line, parse);
    if k < |items| {
      UserItemMoves(items[k], line, parse);
      FirstMoves(items[k..], line, parse);
    }
    SpokenConcat(Moves(items[..k], line, parse), Moves(items[k..], line, parse));
  }

  lemma FirstMoves(items: seq<Item>, line: Line, parse: Text -> Option<Json>)
    requires items != [] && ItemMoves(items[0], line, parse) != []
    ensures Moves(items, line, parse) != [] && Moves(items, line, parse)[0] == ItemMoves(items[0], line, parse)[0]
  {
    hide ItemMoves;
  }

  // ---- the turns of one run ----

  predicate AllOfRun(ms: seq<Move>) {
    forall i :: 0 <= i < |ms| ==> OfRun(ms[i])
  }

  lemma {:induction false} WholeRun(ms: seq<Move>)
    requires AllOfRun(ms)
    ensures RunLength(ms) == |ms|
  {
    if ms != [] {
      WholeRun(ms[1..]);
    }
  }

  /** A run that opens with words or joined calls is one turn. */
  lemma OneTurn(ms: seq<Move>)
    requires AllOfRun(ms) && ms != [] && ms[0].Adds?
    ensures Spoken(ms) == [RunOfMoves(WordsOf(ms), CallsIn(ms), FragsOf(ms))]
  {
    hide RunOfMoves, WordsOf, CallsIn, FragsOf;
    WholeRun(ms);
    assert ms[..|ms|] == ms && ms[|ms|..] == [];
    assert Spoken([]) == [];
  }

  lemma {:induction false} EachCallOfRun(calls: seq<Text>)
    ensures |EachCall(calls)| == |calls| && AllOfRun(EachCall(calls)) && CallsIn(EachCall(calls)) == calls
    ensures WordsOf(EachCall(calls)) == []
    ensures forall i :: 0 <= i < |calls| ==> EachCall(calls)[i].Calls?
  {
    if calls != [] {
      EachCallOfRun(calls[1..]);
      assert EachCall(calls)[1..] == EachCall(calls[1..]);
    }
  }

  lemma {:induction false} WordsConcat(a: seq<Move>, b: seq<Move>)
    ensures WordsOf(a + b) == WordsOf(a) + WordsOf(b)
  {
    if a == [] {
      assert a + b == b;
    } else {
      assert (a + b)[1..] == a[1..] + b;
      WordsConcat(a[1..], b);
      Associate(if a[0].Adds? then a[0].text else [], WordsOf(a[1..]), WordsOf(b));
    }
  }

  function CallsBy(m: Move): seq<Text> {
    match m case Adds(_, calls) => calls case Calls(call) => [call] case _ => []
  }

  lemma {:induction false} CallsConcat(a: seq<Move>, b: seq<Move>)
    ensures CallsIn(a + b) == CallsIn(a) + CallsIn(b)
  {
    if a == [] {
      assert a + b == b;
    } else {
      assert (a + b)[1..] == a[1..] + b;
      CallsConcat(a[1..], b);
      Associate(CallsBy(a[0]), CallsIn(a[1..]), CallsIn(b));
    }
  }

  lemma OneMove(m: Move)
    ensures WordsOf([m]) == (if m.Adds? then m.text else [])
    ensures CallsIn([m]) == (match m case Adds(_, calls) => calls case Calls(call) => [call] case _ => [])
  {
    assert [m][1..] == [];
  }

  /** A message with words and calls, with the lone calls behind it. */
  lemma WordsThenCalls(words: seq<Move>, m: Move, calls: seq<Text>)
    requires AllOfRun(words) && OfRun(m)
    ensures var ms := words + [m] + EachCall(calls);
      AllOfRun(ms) && CallsIn(ms) == CallsIn(words) + CallsBy(m) + calls
  {
    hide CallsIn, EachCall;
    EachCallOfRun(calls);
    CallsConcat(words + [m], EachCall(calls));
    CallsConcat(words, [m]);
    OneMove(m);
  }

  lemma JoinedActsMoves(item: Item, line: Line, parse: Text -> Option<Json>)
    requires item.Acts? && line != ResponsesLine
    ensures var ms := ItemMoves(item, line, parse);
      AllOfRun(ms) && ms != [] && CallsIn(ms) == CallsRead(item.calls, line, parse) && ms[0].Adds?
  {
    hide CallsRead, CallsIn, Words, EachCall, AllOfRun;
    var read := CallsRead(item.calls, line, parse);
    NoMoves();
    assert [] + read == read && read + [] == read;
    var m := Adds(if line == OpenAILine then [] else Words(item.prose), read);
    if line == AnthropicLine && item.thinking.Some? {
      var first := Adds(Words(item.thinking), []);
      OneMove(first);
      OneOfRun(first);
      WordsThenCalls([first], m, []);
      assert ItemMoves(item, line, parse) == [first] + [m] + EachCall([]);
    } else {
      WordsThenCalls([], m, []);
      assert ItemMoves(item, line, parse) == [] + [m] + EachCall([]);
    }
  }

  lemma LoneCallsMoves(read: seq<Text>)
    requires read != []
    ensures var ms := EachCall(read);
      AllOfRun(ms) && ms != [] && CallsIn(ms) == read && !ms[0].Adds? && |ms| == |read|
  {
    hide CallsIn, AllOfRun, EachCall;
    EachCallOfRun(read);
  }

  lemma WordsAndCallsMoves(words: Text, read: seq<Text>)
    ensures var ms := [Adds(words, [])] + EachCall(read);
      AllOfRun(ms) && CallsIn(ms) == read && ms[0].Adds?
  {
    hide CallsIn, AllOfRun, EachCall;
    var m := Adds(words, []);
    NoMoves();
    WordsThenCalls([], m, read);
    assert [] + [m] + EachCall(read) == [m] + EachCall(read);
    assert CallsBy(m) == [] && [] + [] + read == read;
  }

  lemma ApartActsMoves(item: Item, parse: Text -> Option<Json>)
    requires item.Acts? && item.calls != []
    ensures var ms := ItemMoves(item, ResponsesLine, parse);
      && AllOfRun(ms) && ms != [] && CallsIn(ms) == CallsRead(item.calls, ResponsesLine, parse)
      && (if item.prose.Some? then ms[0].Adds? else !ms[0].Adds? && |ms| == |item.calls|)
  {
    hide CallsRead, CallsIn, Words, EachCall, AllOfRun;
    var read := CallsRead(item.calls, ResponsesLine, parse);
    CallsReadCount(item.calls, ResponsesLine, parse);
    if item.prose.Some? {
      WordsAndCallsMoves(Words(item.prose), read);
    } else {
      LoneCallsMoves(read);
      assert [] + EachCall(read) == EachCall(read);
    }
  }

  lemma ActsMoves(item: Item, line: Line, parse: Text -> Option<Json>)
    requires item.Acts? && GoodItem(item, parse)
    ensures var ms := ItemMoves(item, line, parse);
      && AllOfRun(ms) && ms != [] && CallsIn(ms) == CallsRead(item.calls, line, parse)
      && (line != ResponsesLine || item.prose.Some? ==> ms[0].Adds?)
      && (line == ResponsesLine && item.prose.None? ==> !ms[0].Adds? && |ms| == |item.calls|)
  {
    hide CallsRead, CallsIn, AllOfRun, RoundTrips, ItemMoves;
    if line == ResponsesLine {
      ApartActsMoves(item, parse);
    } else {
      JoinedActsMoves(item, line, parse);
    }
  }

  lemma OneOfRun(m: Move)
    requires OfRun(m)
    ensures AllOfRun([m])
  {
  }

  lemma NoMoves()
    ensures CallsIn([]) == [] && WordsOf([]) == [] && EachCall([]) == [] && AllOfRun([])
  {
  }

  lemma AnswersMoves(t: Text, line: Line, parse: Text -> Option<Json>)
    ensures var ms := ItemMoves(Answers(t), line, parse);
      && AllOfRun(ms) && |ms| == 1 && ms[0].Adds? && CallsIn(ms) == []
      && WordsOf(ms) == if line == OpenAILine then t else Words(Some(t))
  {
    OneMove(Adds(if line == OpenAILine then t else Words(Some(t)), []));
  }

  lemma {:induction false} CallsReadCount(cs: seq<Call>, line: Line, parse: Text -> Option<Json>)
    ensures |CallsRead(cs, line, parse)| == |cs|
  {
    if cs != [] {
      hide CallRead;
      CallsReadCount(cs[1..], line, parse);
    }
  }

  function AllCalls(run: seq<Item>, line: Line, parse: Text -> Option<Json>): seq<Text> {
    if run == [] then []
    else (if run[0].Acts? then CallsRead(run[0].calls, line, parse) else []) + AllCalls(run[1..], line, parse)
  }

  function AllWords(run: seq<Item>, line: Line): Text {
    if run == [] then []
    else
      (if run[0].Answers? then (if line == OpenAILine then run[0].text else Words(Some(run[0].text))) else [])
      + AllWords(run[1..], line)
  }

  /** The first contribution of an item of a run, and its calls. */
  lemma FirstOfRun(item: Item, line: Line, parse: Text -> Option<Json>)
    requires ByAssistant(item) && GoodItem(item, parse)
    ensures var ms := ItemMoves(item, line, parse);
      && AllOfRun(ms) && ms != []
      && CallsIn(ms) == (if item.Acts? then CallsRead(item.calls, line, parse) else [])
      && (ms[0].Adds? <==> line != ResponsesLine || OpensWithWords([item]))
      && (|ms| == 1 && !ms[0].Adds? <==> line == ResponsesLine && IsOneCall([item]))
      && (item.Answers? ==> WordsOf(ms) == AllWords([item], line))
  {
    hide ItemMoves, AllOfRun, CallsIn, CallsRead, WordsOf, RoundTrips, Words;
    assert [item][1..] == [];
    if item.Acts? {
      ActsMoves(item, line, parse);
    } else {
      AnswersMoves(item.text, line, parse);
      assert item == Answers(item.text);
      var told := if line == OpenAILine then item.text else Words(Some(item.text));
      assert told + [] == told && AllWords([], line) == [];
    }
  }

  lemma AllOfRunConcat(a: seq<Move>, b: seq<Move>)
    requires AllOfRun(a) && AllOfRun(b)
    ensures AllOfRun(a + b)
  {
  }

  lemma AppendFirst<T>(a: seq<T>, b: seq<T>)
    requires a != []
    ensures a + b != [] && (a + b)[0] == a[0] && |a + b| == |a| + |b|
  {
  }

  lemma {:induction false} RunMoves(run: seq<Item>, line: Line, parse: Text -> Option<Json>)
    requires AllByAssistant(run) && Good(run, parse)
    ensures var ms := Moves(run, line, parse);
      && AllOfRun(ms) && CallsIn(ms) == AllCalls(run, line, parse) && |ms| >= |run|
      && (run != [] ==> ms[0] == ItemMoves(run[0], line, parse)[0])
      && (|run| == 1 ==> ms == ItemMoves(run[0], line, parse))
  {
    hide ItemMoves, CallsIn, AllOfRun, CallsRead, GoodItem, WordsOf;
    if run == [] {
      NoMoves();
    } else {
      var head, rest := ItemMoves(run[0], line, parse), Moves(run[1..], line, parse);
      FirstOfRun(run[0], line, parse);
      RunMoves(run[1..], line, parse);
      AllOfRunConcat(head, rest);
      AppendFirst(head, rest);
      CallsConcat(head, rest);
      assert head + [] == head;
    }
  }

  /** Without calls a run is answers only, and its words are theirs. */
  lemma {:induction false} RunWords(run: seq<Item>, line: Line, parse: Text -> Option<Json>)
    requires AllByAssistant(run) && Good(run, parse) && !AnyActs(run)
    ensures WordsOf(Moves(run, line, parse)) == AllWords(run, line)
    ensures AllCalls(run, line, parse) == []
  {
    hide ItemMoves, CallsIn, AllOfRun, CallsRead, GoodItem, WordsOf, Words;
    if run == [] {
      NoMoves();
    } else {
      var head, rest := ItemMoves(run[0], line, parse), Moves(run[1..], line, parse);
      FirstOfRun(run[0], line, parse);
      assert run[0].Answers?;
      assert !AnyActs(run[1..]) by {
        assert forall i :: 0 <= i < |run[1..]| ==> run[1..][i] == run[i + 1];
      }
      RunWords(run[1..], line, parse);
      WordsConcat(head, rest);
      AllWordsOne(run, line);
    }
  }

  lemma AllWordsOne(run: seq<Item>, line: Line)
    requires run != []
    ensures AllWords(run, line) == AllWords([run[0]], line) + AllWords(run[1..], line)
  {
    hide Words;
    assert [run[0]][1..] == [];
    assert AllWords([], line) == [];
  }

  // ---- when one run agrees ----

  lemma NullPrints()
    ensures Neutral.Canon(Null) != Neutral.Canon(Obj([]))
  {
    assert Neutral.Canon(Null)[0] == 110 && Neutral.Canon(Obj([]))[0] == OPEN_OBJECT;
  }

  lemma CallsDiffer(c: Call, line: Line, parse: Text -> Option<Json>)
    ensures CallRead(c, OpenAILine, parse) == CallRead(c, line, parse) <==> ArgsAgree(c.args, line, parse)
  {
    hide Neutral.Canon;
    NullPrints();
    var o, x := CallRead(c, OpenAILine, parse), CallRead(c, line, parse);
    if o == x {
      CutHead(c.name + [0], o[|c.name| + 1..], x[|c.name| + 1..]);
    }
  }

  lemma {:induction false} CallListsDiffer(cs: seq<Call>, line: Line, parse: Text -> Option<Json>)
    ensures CallsRead(cs, OpenAILine, parse) == CallsRead(cs, line, parse) <==> CallsAgree(cs, line, parse)
  {
    if cs != [] {
      hide CallRead, ArgsAgree;
      CallsDiffer(cs[0], line, parse);
      CallListsDiffer(cs[1..], line, parse);
      var o, x := CallsRead(cs, OpenAILine, parse), CallsRead(cs, line, parse);
      assert o[0] == CallRead(cs[0], OpenAILine, parse) && x[0] == CallRead(cs[0], line, parse);
      assert o[1..] == CallsRead(cs[1..], OpenAILine, parse) && x[1..] == CallsRead(cs[1..], line, parse);
      assert CallsAgree(cs, line, parse) <==> ArgsAgree(cs[0].args, line, parse) && CallsAgree(cs[1..], line, parse) by {
        assert forall i :: 1 <= i < |cs| ==> cs[i] == cs[1..][i - 1];
      }
    }
  }

  predicate ActsAgree(run: seq<Item>, line: Line, parse: Text -> Option<Json>) {
    forall i :: 0 <= i < |run| && run[i].Acts? ==> CallsAgree(run[i].calls, line, parse)
  }

  lemma {:induction false} AllCallsDiffer(run: seq<Item>, line: Line, parse: Text -> Option<Json>)
    ensures |AllCalls(run, OpenAILine, parse)| == |AllCalls(run, line, parse)|
    ensures AllCalls(run, OpenAILine, parse) == AllCalls(run, line, parse) <==> ActsAgree(run, line, parse)
  {
    if run != [] {
      hide CallsRead, CallsAgree;
      AllCallsDiffer(run[1..], line, parse);
      if run[0].Acts? {
        CallListsDiffer(run[0].calls, line, parse);
        CallsReadCount(run[0].calls, OpenAILine, parse);
        CallsReadCount(run[0].calls, line, parse);
      }
      var oh := if run[0].Acts? then CallsRead(run[0].calls, OpenAILine, parse) else [];
      var xh := if run[0].Acts? then CallsRead(run[0].calls, line, parse) else [];
      SameParts(oh, AllCalls(run[1..], OpenAILine, parse), xh, AllCalls(run[1..], line, parse));
      assert forall i :: 1 <= i < |run| ==> run[i] == run[1..][i - 1];
    }
  }

  lemma SameParts<T>(a: seq<T>, b: seq<T>, c: seq<T>, d: seq<T>)
    requires |a| == |c|
    ensures a + b == c + d <==> a == c && b == d
  {
    if a + b == c + d {
      SplitConcat(a, b, c, d);
    }
  }

  predicate NoPlaceholder(run: seq<Item>) {
    forall i :: 0 <= i < |run| ==> run[i] != Answers(PLACEHOLDER)
  }

  lemma NoPlaceholderStep(run: seq<Item>)
    requires run != []
    ensures NoPlaceholder(run) <==> run[0] != Answers(PLACEHOLDER) && NoPlaceholder(run[1..])
  {
    assert forall i :: 1 <= i < |run| ==> run[i] == run[1..][i - 1];
    assert forall i :: 0 <= i < |run[1..]| ==> run[1..][i] == run[i + 1];
  }

  /** Dropping the placeholder only shortens. */
  lemma {:induction false} AllWordsDiffer(run: seq<Item>, line: Line)
    requires line != OpenAILine
    ensures |AllWords(run, OpenAILine)| >= |AllWords(run, line)|
    ensures AllWords(run, OpenAILine) == AllWords(run, line) <==> NoPlaceholder(run)
  {
    if run != [] {
      AllWordsDiffer(run[1..], line);
      NoPlaceholderStep(run);
      var a, b := AllWords(run[1..], OpenAILine), AllWords(run[1..], line);
      if run[0].Answers? {
        assert run[0] == Answers(run[0].text);
        assert AllWords(run, line) == Words(Some(run[0].text)) + b;
        WordsDropped(run[0].text, a, b);
      } else {
        assert run[0] != Answers(PLACEHOLDER);
        assert AllWords(run, line) == [] + b == b && AllWords(run, OpenAILine) == [] + a == a;
      }
    }
  }

  lemma WordsDropped(t: Text, a: Text, b: Text)
    requires |a| >= |b|
    ensures |t + a| >= |Words(Some(t)) + b|
    ensures t + a == Words(Some(t)) + b <==> t != PLACEHOLDER && a == b
  {
    assert |PLACEHOLDER| > 0;
    if t == PLACEHOLDER {
      assert |t + a| > |Words(Some(t)) + b|;
    } else {
      SameParts(t, a, t, b);
    }
  }

  // ---- the turns of a run on both wires ----

  lemma {:induction false} SomethingSpoken(ms: seq<Move>)
    requires AllOfRun(ms) && ms != []
    ensures Spoken(ms) != []
  {
    hide Spoken, AloneTurns, FirstRun;
    if ms[0].Adds? {
      SpokenRun(ms);
    } else {
      SpokenAlone(ms);
      LoneCallTurn(ms[0]);
    }
  }

  lemma LoneCallTurn(m: Move)
    requires m.Calls?
    ensures AloneTurns(m) == [Turn(Lit("assistant"), None, Some([m.call]), [FragOf(m)])]
  {
    assert [m][0] == m && [m][1..] == [];
    NothingIsSpoken();
    assert Spoken([m]) == [Turn(Lit("assistant"), None, Some([m.call]), [FragOf(m)])] + Spoken([m][1..]);
  }

  /** On openai a run is one turn. */
  lemma OpenAIRunTurn(run: seq<Item>, parse: Text -> Option<Json>)
    requires run != [] && AllByAssistant(run) && Good(run, parse)
    ensures var ms := Moves(run, OpenAILine, parse);
      Turns(run, OpenAILine, parse) == [RunOfMoves(WordsOf(ms), AllCalls(run, OpenAILine, parse), FragsOf(ms))]
  {
    hide Spoken, RunOfMoves, WordsOf, FragsOf, Moves, AllCalls, GoodItem, AllOfRun, CallsIn, ItemMoves;
    RunMoves(run, OpenAILine, parse);
    FirstOfRun(run[0], OpenAILine, parse);
    OneTurn(Moves(run, OpenAILine, parse));
  }

  /** Elsewhere too, unless it is a run of lone calls. */
  lemma OtherRunTurn(run: seq<Item>, line: Line, parse: Text -> Option<Json>)
    requires run != [] && AllByAssistant(run) && Good(run, parse)
    requires line != ResponsesLine || OpensWithWords(run)
    ensures var ms := Moves(run, line, parse);
      Turns(run, line, parse) == [RunOfMoves(WordsOf(ms), AllCalls(run, line, parse), FragsOf(ms))]
  {
    hide Spoken, RunOfMoves, WordsOf, FragsOf, Moves, AllCalls, GoodItem, AllOfRun, CallsIn, ItemMoves;
    RunMoves(run, line, parse);
    FirstOfRun(run[0], line, parse);
    OneTurn(Moves(run, line, parse));
  }

  /** A responses run that opens with a lone call is one turn only when that call is all of it. */
  lemma LoneCallsRun(run: seq<Item>, parse: Text -> Option<Json>)
    requires run != [] && AllByAssistant(run) && Good(run, parse) && !OpensWithWords(run)
    ensures var x := Turns(run, ResponsesLine, parse);
      && x != [] && (|x| == 1 <==> IsOneCall(run))
      && (|x| == 1 ==> x[0].kind == ASSISTANT && x[0].calls == Some(AllCalls(run, ResponsesLine, parse)))
  {
    hide Spoken, Moves, AllCalls, GoodItem, AllOfRun, CallsIn, ItemMoves, AloneTurns;
    var ms := Moves(run, ResponsesLine, parse);
    RunMoves(run, ResponsesLine, parse);
    FirstOfRun(run[0], ResponsesLine, parse);
    assert !ms[0].Adds?;
    FirstIsCall(ms);
    SpokenAlone(ms);
    LoneCallTurn(ms[0]);
    if |ms| == 1 {
      NothingIsSpoken();
      OneMove(ms[0]);
      assert ms == [ms[0]] && ms[1..] == [];
    } else {
      TailOfRun(ms);
      SomethingSpoken(ms[1..]);
    }
  }

  lemma FirstIsCall(ms: seq<Move>)
    requires AllOfRun(ms) && ms != [] && !ms[0].Adds?
    ensures ms[0].Calls?
  {
  }

  lemma TailOfRun(ms: seq<Move>)
    requires AllOfRun(ms) && |ms| > 1
    ensures AllOfRun(ms[1..]) && ms[1..] != []
  {
  }

  lemma NoActsNoCalls(run: seq<Item>, line: Line, parse: Text -> Option<Json>)
    requires AllByAssistant(run) && Good(run, parse)
    ensures AllCalls(run, line, parse) == [] <==> !AnyActs(run)
  {
    hide CallsRead, RoundTrips, GoodItem, Moves, WordsOf;
    if AnyActs(run) {
      var i :| 0 <= i < |run| && run[i].Acts?;
      ActsHaveCalls(run, i, line, parse);
    } else {
      RunWords(run, line, parse);
    }
  }

  lemma {:induction false} ActsHaveCalls(run: seq<Item>, i: nat, line: Line, parse: Text -> Option<Json>)
    requires i < |run| && run[i].Acts? && GoodItem(run[i], parse)
    ensures AllCalls(run, line, parse) != []
  {
    hide CallsRead, RoundTrips;
    if i == 0 {
      CallsReadCount(run[0].calls, line, parse);
    } else {
      ActsHaveCalls(run[1..], i - 1, line, parse);
    }
  }

  /** A run has one and the same turn on both wires exactly when it agrees. */
  lemma RunTurnsAgree(run: seq<Item>, line: Line, parse: Text -> Option<Json>)
    requires run != [] && AllByAssistant(run) && Good(run, parse) && line != OpenAILine
    ensures var o, x := Turns(run, OpenAILine, parse), Turns(run, line, parse);
      && |o| == 1 && x != [] && o[0].kind == ASSISTANT
      && (|x| == 1 && SameTurn(o[0], x[0]) <==> RunAgrees(run, line, parse))
  {
    hide Spoken, Moves, AllCalls, GoodItem, WordsOf, FragsOf, AllWords, CallsAgree, IsOneCall, OpensWithWords;
    OpenAIRunTurn(run, parse);
    AllCallsDiffer(run, line, parse);
    NoActsNoCalls(run, OpenAILine, parse);
    NoActsNoCalls(run, line, parse);
    if line == ResponsesLine && !OpensWithWords(run) {
      LoneCallsRun(run, parse);
      OneCallAgrees(run, parse);
    } else {
      OtherRunTurn(run, line, parse);
      if !AnyActs(run) {
        RunWords(run, OpenAILine, parse);
        RunWords(run, line, parse);
        AllWordsDiffer(run, line);
      }
    }
  }

  lemma OneCallAgrees(run: seq<Item>, parse: Text -> Option<Json>)
    ensures IsOneCall(run) ==> AnyActs(run)
    ensures ActsAgree(run, ResponsesLine, parse)
  {
    if IsOneCall(run) {
      assert run[0].Acts?;
    }
  }

  // ---- the whole conversation ----

  predicate SameTurns(a: seq<Turn>, b: seq<Turn>) {
    |a| == |b| && forall i :: 0 <= i < |a| ==> SameTurn(a[i], b[i])
  }

  lemma SameTurnsJoin(a: seq<Turn>, b: seq<Turn>, c: seq<Turn>, d: seq<Turn>)
    requires SameTurns(a, c) && SameTurns(b, d)
    ensures SameTurns(a + b, c + d)
  {
    hide SameTurn;
  }

  lemma SameTurnsConcat(a: seq<Turn>, b: seq<Turn>, c: seq<Turn>, d: seq<Turn>)
    requires |a| == |c|
    ensures SameTurns(a + b, c + d) <==> SameTurns(a, c) && SameTurns(b, d)
  {
    hide SameTurn;
    var o, x := a + b, c + d;
    if SameTurns(o, x) {
      forall i | 0 <= i < |a| ensures SameTurn(a[i], c[i]) {
        assert SameTurn(o[i], x[i]);
      }
      forall i | 0 <= i < |b| ensures SameTurn(b[i], d[i]) {
        assert SameTurn(o[|a| + i], x[|a| + i]);
      }
    } else if SameTurns(a, c) && SameTurns(b, d) {
      SameTurnsJoin(a, b, c, d);
    }
  }

  lemma SameToItself(a: seq<Turn>)
    ensures SameTurns(a, a)
  {
  }

  /** A user turn that says the placeholder. */
  predicate SaysPlaceholder(t: Turn) {
    t.kind == Lit("user") && t.calls.None? && ContentOf(t) == PLACEHOLDER
  }

  predicate NoneSays(ts: seq<Turn>) {
    forall i :: 0 <= i < |ts| ==> !SaysPlaceholder(ts[i])
  }

  predicate NoStray(items: seq<Item>) {
    forall i :: 0 <= i < |items| ==> !Stray(items[i])
  }

  /** Every run of the conversation agrees. */
  predicate RunsAgree(items: seq<Item>, line: Line, parse: Text -> Option<Json>) {
    if items == [] then true
    else if !ByAssistant(items[0]) then RunsAgree(items[1..], line, parse)
    else
      var k := RunHead(items);
      assert k > 0;
      RunAgrees(items[..k], line, parse) && RunsAgree(items[k..], line, parse)
  }

  lemma {:induction false} ResultTurns(rs: seq<ToolReply>)
    ensures NoneSays(Spoken(EachResult(rs)))
  {
    Spelling();
    assert TOOL[0] == 116 && USER[0] == 117;
    if rs != [] {
      hide SaysPlaceholder;
      ResultTurns(rs[1..]);
      assert EachResult(rs)[1..] == EachResult(rs[1..]);
      ToolSaysNothing(rs[0].body);
    }
  }

  lemma ToolSaysNothing(body: Text)
    ensures !SaysPlaceholder(Turn(Lit("tool"), Some(body), None, [Frag(Lit("tool"), body, [])]))
    ensures Lit("tool") != Lit("user")
  {
    Spelling();
    assert TOOL[0] == 116 && USER[0] == 117;
  }

  lemma PlaceholderIsNoNotice()
    ensures !Notice(PLACEHOLDER)
  {
    Spelling();
    PlaceholderIs();
    NoticeIsMarker(PLACEHOLDER);
    assert PLACEHOLDER[0] == 40 && MARKER_OPEN[0] == 91;
  }

  /** What one user move says. */
  lemma UserMoveSays(t: Text, line: Line)
    ensures AloneTurns(UserMove(t, line)) ==
      if (t == PLACEHOLDER && line != OpenAILine) || Notice(t) then []
      else [Turn(Lit("user"), Some(t), None, [Frag(Lit("user"), t, [])])]
  {
    hide Notice;
    PlaceholderIsNoNotice();
    NothingIsSpoken();
    var m := UserMove(t, line);
    assert [m][0] == m && [m][1..] == [];
  }

  lemma NoneSaysConcat(a: seq<Turn>, b: seq<Turn>)
    ensures NoneSays(a + b) <==> NoneSays(a) && NoneSays(b)
  {
    hide SaysPlaceholder;
    var ab := a + b;
    assert forall i :: 0 <= i < |a| ==> ab[i] == a[i];
    assert forall i :: 0 <= i < |b| ==> ab[|a| + i] == b[i];
  }

  lemma UserItemSays(item: Item, line: Line, parse: Text -> Option<Json>)
    requires !ByAssistant(item) && line != OpenAILine
    ensures var o, x := Spoken(ItemMoves(item, OpenAILine, parse)), Spoken(ItemMoves(item, line, parse));
      && NoneSays(x) && (NoneSays(o) <==> !Stray(item)) && (!Stray(item) ==> o == x)
  {
    hide Spoken, EachResult, UserMove, NoneSays;
    match item
    case Says(t) =>
      UserSays(t, line);
    case Replies(rs, followUp) =>
      ResultTurns(rs);
      if followUp.Some? {
        UserSays(followUp.value, line);
        ResultsOutsideRuns(rs);
        SpokenBehind(EachResult(rs), [UserMove(followUp.value, OpenAILine)]);
        SpokenBehind(EachResult(rs), [UserMove(followUp.value, line)]);
        NoneSaysConcat(Spoken(EachResult(rs)), Spoken([UserMove(followUp.value, OpenAILine)]));
        NoneSaysConcat(Spoken(EachResult(rs)), Spoken([UserMove(followUp.value, line)]));
      } else {
        assert EachResult(rs) + [] == EachResult(rs);
      }
  }

  lemma UserSays(t: Text, line: Line)
    requires line != OpenAILine
    ensures var o, x := Spoken([UserMove(t, OpenAILine)]), Spoken([UserMove(t, line)]);
      && NoneSays(x) && (NoneSays(o) <==> t != PLACEHOLDER) && (t != PLACEHOLDER ==> o == x)
  {
    hide Spoken, Notice, UserMove;
    PlaceholderIsNoNotice();
    UserMoveSays(t, OpenAILine);
    UserMoveSays(t, line);
    assert AloneTurns(UserMove(t, line)) == Spoken([UserMove(t, line)]);
    assert AloneTurns(UserMove(t, OpenAILine)) == Spoken([UserMove(t, OpenAILine)]);
    var told := Turn(Lit("user"), Some(t), None, [Frag(Lit("user"), t, [])]);
    assert SaysPlaceholder(told) <==> t == PLACEHOLDER;
    if t == PLACEHOLDER {
      assert [told][0] == told;
    }
  }

  lemma {:induction false} RunSaysNothing(ms: seq<Move>)
    requires AllOfRun(ms)
    ensures NoneSays(Spoken(ms))
    decreases |ms|
  {
    hide Spoken, AloneTurns;
    Spelling();
    assert ASSISTANT[0] == 97 && USER[0] == 117;
    if ms == [] {
      NothingIsSpoken();
    } else if ms[0].Adds? {
      SpokenRun(ms);
      RunSaysNothing(ms[RunLength(ms)..]);
      NoneSaysConcat([FirstRun(ms, RunLength(ms))], Spoken(ms[RunLength(ms)..]));
    } else {
      SpokenAlone(ms);
      LoneCallTurn(ms[0]);
      RunSaysNothing(ms[1..]);
      NoneSaysConcat(AloneTurns(ms[0]), Spoken(ms[1..]));
    }
  }

  /** How the turns of the two wires compare: only openai says the placeholder, and otherwise it has no more turns. */
  predicate Compares(items: seq<Item>, line: Line, parse: Text -> Option<Json>) {
    var o, x := Turns(items, OpenAILine, parse), Turns(items, line, parse);
    && NoneSays(x) && (NoneSays(o) <==> NoStray(items))
    && (NoStray(items) ==> |o| <= |x| && (SameTurns(o, x) <==> RunsAgree(items, line, parse)))
  }

  lemma NoStraySplit(items: seq<Item>, k: nat)
    requires k <= |items|
    ensures NoStray(items) <==> NoStray(items[..k]) && NoStray(items[k..])
  {
    hide Stray;
    assert forall i :: k <= i < |items| ==> items[i] == items[k..][i - k];
    assert forall i :: 0 <= i < k ==> items[i] == items[..k][i];
  }

  lemma UserCompares(items: seq<Item>, line: Line, parse: Text -> Option<Json>)
    requires items != [] && !ByAssistant(items[0]) && Good(items, parse) && line != OpenAILine
    requires Compares(items[1..], line, parse)
    ensures Compares(items, line, parse)
  {
    hide Turns, Spoken, ItemMoves, GoodItem, Stray, NoneSays, SameTurns, RunHead, RunAgrees;
    UserSplit(items, OpenAILine, parse);
    UserSplit(items, line, parse);
    UserItemSays(items[0], line, parse);
    var a, c := Spoken(ItemMoves(items[0], OpenAILine, parse)), Spoken(ItemMoves(items[0], line, parse));
    var b, d := Turns(items[1..], OpenAILine, parse), Turns(items[1..], line, parse);
    NoneSaysConcat(a, b);
    NoneSaysConcat(c, d);
    NoStraySplit(items, 1);
    if !Stray(items[0]) {
      SameTurnsConcat(a, b, c, d);
      SameToItself(a);
    }
  }

  lemma RunCompares(items: seq<Item>, k: nat, line: Line, parse: Text -> Option<Json>)
    requires Good(items, parse) && line != OpenAILine && items != [] && ByAssistant(items[0]) && k == RunHead(items)
    requires k > 0 && Compares(items[k..], line, parse)
    ensures Compares(items, line, parse)
  {
    hide Turns, Spoken, Moves, GoodItem, Stray, NoneSays, SameTurns, RunHead, RunAgrees, SameTurn, AllOfRun;
    var run := items[..k];
    RunSplit(items, k, OpenAILine, parse);
    RunSplit(items, k, line, parse);
    RunTurnsAgree(run, line, parse);
    var a, c := Turns(run, OpenAILine, parse), Turns(run, line, parse);
    var b, d := Turns(items[k..], OpenAILine, parse), Turns(items[k..], line, parse);
    RunQuiet(run, OpenAILine, parse);
    RunQuiet(run, line, parse);
    NoneSaysConcat(a, b);
    NoneSaysConcat(c, d);
    NoStraySplit(items, k);
    RunHasNoStray(run);
    if NoStray(items) {
      if |c| == 1 {
        SameTurnsConcat(a, b, c, d);
        OneSame(a, c);
      } else {
        SameSize(a + b, c + d);
      }
    }
  }

  lemma RunQuiet(run: seq<Item>, line: Line, parse: Text -> Option<Json>)
    requires AllByAssistant(run) && Good(run, parse)
    ensures NoneSays(Turns(run, line, parse))
  {
    hide Spoken, AllOfRun, NoneSays, CallsIn, AllCalls, ItemMoves;
    RunMoves(run, line, parse);
    RunSaysNothing(Moves(run, line, parse));
  }

  lemma RunHasNoStray(run: seq<Item>)
    requires AllByAssistant(run)
    ensures NoStray(run)
  {
  }

  lemma OneSame(a: seq<Turn>, c: seq<Turn>)
    requires |a| == 1 && |c| == 1
    ensures SameTurns(a, c) <==> SameTurn(a[0], c[0])
  {
    hide SameTurn;
  }

  lemma SameSize(a: seq<Turn>, c: seq<Turn>)
    requires |a| != |c|
    ensures !SameTurns(a, c)
  {
  }

  lemma NothingCompares(line: Line, parse: Text -> Option<Json>)
    ensures Compares([], line, parse)
  {
    NothingIsSpoken();
  }

  lemma {:induction false} ConversationCompares(items: seq<Item>, line: Line, parse: Text -> Option<Json>)
    requires Good(items, parse) && line != OpenAILine
    ensures Compares(items, line, parse)
    decreases |items|
  {
    hide Compares, RunHead, GoodItem;
    if items == [] {
      NothingCompares(line, parse);
    } else if !ByAssistant(items[0]) {
      ConversationCompares(items[1..], line, parse);
      UserCompares(items, line, parse);
    } else {
      var k := RunHead(items);
      HeadIsSome(items);
      ConversationCompares(items[k..], line, parse);
      RunCompares(items, k, line, parse);
    }
  }

  lemma HeadIsSome(items: seq<Item>)
    requires items != [] && ByAssistant(items[0])
    ensures RunHead(items) > 0
  {
  }

  // ---- every run, wherever it stands ----

  ghost predicate AllRunsAgree(items: seq<Item>, line: Line, parse: Text -> Option<Json>) {
    forall k: nat, e: nat :: IsRun(items, k, e) ==> RunAgrees(items[k..e], line, parse)
  }

  /** Behind a cut that no run crosses, the runs are the same ones. */
  lemma RunsBehind(items: seq<Item>, c: nat, k: nat, e: nat)
    requires c <= k <= |items| && c > 0 && (c < |items| ==> !ByAssistant(items[c]) || !ByAssistant(items[c - 1]))
    ensures IsRun(items, k, e) <==> e >= c && IsRun(items[c..], k - c, e - c)
    ensures IsRun(items, k, e) ==> items[k..e] == items[c..][k - c..e - c]
  {
    hide ByAssistant;
    var rest := items[c..];
    assert forall i :: c <= i < |items| ==> items[i] == rest[i - c];
  }

  lemma FirstRunEnds(items: seq<Item>, e: nat)
    requires IsRun(items, 0, e)
    ensures e == RunHead(items)
  {
    hide ByAssistant;
  }

  lemma {:induction false} RunsAreAll(items: seq<Item>, line: Line, parse: Text -> Option<Json>)
    ensures RunsAgree(items, line, parse) <==> AllRunsAgree(items, line, parse)
    decreases |items|
  {
    hide RunAgrees;
    if items == [] {
    } else if !ByAssistant(items[0]) {
      RunsAreAll(items[1..], line, parse);
      AllRunsShift(items, 1, line, parse);
      forall e: nat ensures !IsRun(items, 0, e) {
      }
    } else {
      var c := RunHead(items);
      HeadIsSome(items);
      RunsAreAll(items[c..], line, parse);
      AllRunsShift(items, c, line, parse);
      assert IsRun(items, 0, c);
      forall k: nat, e: nat | IsRun(items, k, e) && k < c ensures k == 0 && e == c {
        if k == 0 {
          FirstRunEnds(items, e);
        }
      }
    }
  }

  /** The runs from a cut on. */
  ghost predicate LateRunsAgree(items: seq<Item>, c: nat, line: Line, parse: Text -> Option<Json>) {
    forall k: nat, e: nat :: c <= k && IsRun(items, k, e) ==> RunAgrees(items[k..e], line, parse)
  }

  lemma AllRunsShift(items: seq<Item>, c: nat, line: Line, parse: Text -> Option<Json>)
    requires 0 < c <= |items| && (c < |items| ==> !ByAssistant(items[c]) || !ByAssistant(items[c - 1]))
    ensures AllRunsAgree(items[c..], line, parse) <==> LateRunsAgree(items, c, line, parse)
  {
    hide RunAgrees;
    var rest := items[c..];
    if AllRunsAgree(rest, line, parse) {
      forall k: nat, e: nat | c <= k && IsRun(items, k, e) ensures RunAgrees(items[k..e], line, parse) {
        RunsBehind(items, c, k, e);
        assert IsRun(rest, k - c, e - c);
      }
    }
    if LateRunsAgree(items, c, line, parse) {
      forall k: nat, e: nat | IsRun(rest, k, e) ensures RunAgrees(rest[k..e], line, parse) {
        RunsBehind(items, c, k + c, e + c);
        assert IsRun(items, k + c, e + c);
      }
    }
  }

  // ---- the identity of a conversation ----

  /** The canonical strings of the turns agree one by one: the same conversation identity. */
  predicate SameIdentity(o: seq<Turn>, n: seq<Turn>) {
    |o| == |n| && forall i :: 0 <= i < |o| ==> TurnCanonical(o[i]) == TurnCanonical(n[i])
  }

  lemma IdentityIsTurns(o: seq<Turn>, n: seq<Turn>)
    ensures SameIdentity(o, n) <==> SameTurns(o, n)
  {
    hide TurnCanonical, SameTurn;
    if |o| == |n| {
      forall i | 0 <= i < |o| ensures TurnCanonical(o[i]) == TurnCanonical(n[i]) <==> SameTurn(o[i], n[i]) {
        CanonicalNamesTurn(o[i], n[i]);
      }
    }
  }

  lemma SameSaysAlike(o: seq<Turn>, x: seq<Turn>)
    requires SameTurns(o, x) && NoneSays(x)
    ensures NoneSays(o)
  {
    forall i | 0 <= i < |o| ensures !SaysPlaceholder(o[i]) {
      assert SameTurn(o[i], x[i]) && !SaysPlaceholder(x[i]);
    }
  }

  lemma ComparesAll(items: seq<Item>, line: Line, parse: Text -> Option<Json>)
    requires Compares(items, line, parse)
    ensures SameTurns(Turns(items, OpenAILine, parse), Turns(items, line, parse)) <==> WiresAgree(items, line, parse)
  {
    hide Turns, SameTurns, NoneSays, RunAgrees, Stray;
    RunsAreAll(items, line, parse);
    var o, x := Turns(items, OpenAILine, parse), Turns(items, line, parse);
    if SameTurns(o, x) {
      SameSaysAlike(o, x);
    }
  }

  /**
   * A conversation of user words, answers, tool calls with any thinking or prose around them and tool results,
   * behind any system messages, has on the anthropic, the responses or the google wire the same canonical turns
   * as on openai exactly when the two wires agree on its parts.
   */
  lemma SameIdentityOnBothWires(sys: seq<Json>, items: seq<Item>, line: Line, parse: Text -> Option<Json>)
    requires forall m :: m in sys ==> SystemMessage(m)
    requires Good(items, parse) && line != OpenAILine
    ensures var o := Project(sys + RenderAll(items, OpenAIRender), parse);
      var n := Project(RenderAll(items, Render(line)), parse);
      SameIdentity(o, n) <==> WiresAgree(items, line, parse)
  {
    hide GoodItem, SameTurns, WiresAgree, SameIdentity, Compares, Spoken, Moves, Project, SystemMessage, RenderAll;
    ConversationTurns(sys, items, OpenAILine, parse);
    ConversationTurns([], items, line, parse);
    assert Render(OpenAILine) == OpenAIRender;
    assert [] + RenderAll(items, Render(line)) == RenderAll(items, Render(line));
    ConversationCompares(items, line, parse);
    ComparesAll(items, line, parse);
    IdentityIsTurns(Turns(items, OpenAILine, parse), Turns(items, line, parse));
  }

  // ---- conversations that fork ----

  predicate Forks(items: seq<Item>, line: Line, parse: Text -> Option<Json>) {
    !SameIdentity(Project(RenderAll(items, OpenAIRender), parse), Project(RenderAll(items, Render(line)), parse))
  }

  lemma ForksUnlessAgreed(items: seq<Item>, line: Line, parse: Text -> Option<Json>)
    requires Good(items, parse) && line != OpenAILine
    ensures Forks(items, line, parse) <==> !WiresAgree(items, line, parse)
  {
    hide SameIdentity, Project, RenderAll, Render, WiresAgree, GoodItem;
    SameIdentityOnBothWires([], items, line, parse);
    assert [] + RenderAll(items, OpenAIRender) == RenderAll(items, OpenAIRender);
  }

  /** User words, or a lone answer, equal to the image placeholder. */
  lemma PlaceholderForks(line: Line, parse: Text -> Option<Json>)
    requires line != OpenAILine
    ensures Forks([Says(PLACEHOLDER)], line, parse) && Forks([Answers(PLACEHOLDER)], line, parse)
  {
    hide Forks;
    var s, a := [Says(PLACEHOLDER)], [Answers(PLACEHOLDER)];
    ForksUnlessAgreed(s, line, parse);
    ForksUnlessAgreed(a, line, parse);
    assert Stray(s[0]);
    assert IsRun(a, 0, 1) && a[0..1][0] == Answers(PLACEHOLDER) && !RunAgrees(a[0..1], line, parse);
  }

  /** A call with null arguments: null on openai, an empty object on anthropic and google. */
  lemma NullArgumentsFork(id: Text, name: Text, line: Line, parse: Text -> Option<Json>)
    requires RoundTrips(Null, parse) && (line == AnthropicLine || line == GoogleLine)
    ensures Forks([Acts(None, None, [Call(id, name, Null)])], line, parse)
  {
    hide Forks;
    var items := [Acts(None, None, [Call(id, name, Null)])];
    ForksUnlessAgreed(items, line, parse);
    assert !ArgsAgree(items[0].calls[0].args, line, parse);
    assert IsRun(items, 0, 1) && items[0..1] == items && !RunAgrees(items[0..1], line, parse);
  }

  /** A string argument that is itself JSON text: anthropic parses it once more. */
  lemma JsonTextArgumentsFork(id: Text, name: Text, parse: Text -> Option<Json>)
    requires RoundTrips(Str(Lit("1")), parse) && parse(Lit("1")) == Some(Num(Lit("1")))
    ensures Forks([Acts(None, None, [Call(id, name, Str(Lit("1")))])], AnthropicLine, parse)
  {
    hide Forks;
    var items := [Acts(None, None, [Call(id, name, Str(Lit("1")))])];
    ForksUnlessAgreed(items, AnthropicLine, parse);
    assert Neutral.Canon(Num(Lit("1")))[0] == 49 && Neutral.Canon(Str(Lit("1")))[0] == QUOTE;
    assert !ArgsAgree(items[0].calls[0].args, AnthropicLine, parse);
    assert IsRun(items, 0, 1) && items[0..1] == items && !RunAgrees(items[0..1], AnthropicLine, parse);
  }

  /** Two calls at once without a word before them: one turn on openai, two on responses. */
  lemma ParallelCallsFork(a: Call, b: Call, parse: Text -> Option<Json>)
    requires RoundTrips(a.args, parse) && RoundTrips(b.args, parse)
    ensures Forks([Acts(None, None, [a, b])], ResponsesLine, parse)
  {
    hide Forks;
    var items := [Acts(None, None, [a, b])];
    ForksUnlessAgreed(items, ResponsesLine, parse);
    assert IsRun(items, 0, 1) && items[0..1] == items && !RunAgrees(items[0..1], ResponsesLine, parse);
  }
}
