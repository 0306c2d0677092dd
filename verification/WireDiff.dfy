/** Comparing two consecutive request bodies: strict prefix, appended messages, or a rewrite. */
module WireDiff {
  import opened Texts
  import opened Seqs
  import opened Json
  import opened Printing
  import opened PrintedMembers
  import opened Names
  import opened ByteCompare
  import opened WireSpans

  const CONTENTS: Text := Lit("contents")

  /** The keys a message list may stand under, in the order they are tried. */
  const MSG_KEYS: seq<Text> := [MESSAGES, INPUT, CONTENTS]

  // ---- finding the message array in the text ----

  /** \\s of a JavaScript pattern. */
  predicate Space(c: CodeUnit) {
    9 <= c <= 13 || c == 32 || c == 160 || c == 0x1680 || 0x2000 <= c <= 0x200A || c == 0x2028 || c == 0x2029
    || c == 0x202F || c == 0x205F || c == 0x3000 || c == 0xFEFF
  }

  function SkipSpace(text: Text, i: nat): (j: nat)
    requires i <= |text|
    ensures i <= j <= |text|
    ensures forall m :: i <= m < j ==> Space(text[m])
    decreases |text| - i
  {
    if i < |text| && Space(text[i]) then SkipSpace(text, i + 1) else i
  }

  predicate Has(text: Text, i: nat, c: CodeUnit) {
    i < |text| && text[i] == c
  }

  /** The quoted key, a colon and an opening bracket, spaces aside: where the bracket is. */
  function MatchAt(text: Text, i: nat, key: Text): (r: Option<nat>)
    ensures r.Some? ==> i + |key| + 2 < r.value < |text| && text[r.value] == OPEN_ARRAY
  {
    var k := i + 1 + |key|;
    if Has(text, i, QUOTE) && k < |text| && text[i + 1..k] == key && text[k] == QUOTE then
      var colon := SkipSpace(text, k + 1);
      if Has(text, colon, COLON) && Has(text, SkipSpace(text, colon + 1), OPEN_ARRAY)
      then Some(SkipSpace(text, colon + 1)) else None
    else None
  }

  /** The brackets of all matches of the global pattern, left to right. */
  function Matches(text: Text, key: Text, i: nat): (r: seq<nat>)
    ensures forall s :: s in r ==> i < s < |text| && text[s] == OPEN_ARRAY
    decreases |text| - i
  {
    if i >= |text| then []
    else
      match MatchAt(text, i, key)
      case Some(start) => [start] + Matches(text, key, start + 1)
      case None => Matches(text, key, i + 1)
  }

  function SpansAt(text: Text, start: nat): seq<Span>
    requires start < |text|
  {
    Spans(text[start + 1..], start + 1)
  }

  /** The first candidate with the right number of elements. */
  function FirstFitting(text: Text, starts: seq<nat>, count: nat): (r: Option<nat>)
    requires forall k :: 0 <= k < |starts| ==> starts[k] < |text|
    ensures r.Some? ==> r.value in starts && |SpansAt(text, r.value)| == count
    ensures r.None? ==> forall k :: 0 <= k < |starts| ==> |SpansAt(text, starts[k])| != count
  {
    if starts == [] then None
    else if |SpansAt(text, starts[0])| == count then Some(starts[0])
    else FirstFitting(text, starts[1..], count)
  }

  datatype MsgInfo = MsgInfo(key: Text, spans: seq<Span>, items: seq<Json>)

  /** What one key gives: the fitting candidate, else the first one. */
  function InfoFor(text: Text, parsed: Json, key: Text): Option<MsgInfo> {
    match Get(parsed, key)
    case Some(Arr(items)) =>
      var starts := Matches(text, key, 0);
      assert forall k :: 0 <= k < |starts| ==> starts[k] in starts;
      if starts == [] then None
      else
        var fit := FirstFitting(text, starts, |items|);
        var start := if fit.Some? then fit.value else starts[0];
        assert start in starts;
        Some(MsgInfo(key, SpansAt(text, start), items))
    case _ => None
  }

  function InfoAmong(text: Text, parsed: Json, keys: seq<Text>): Option<MsgInfo> {
    if keys == [] then None
    else
      var info := InfoFor(text, parsed, keys[0]);
      if info.Some? then info else InfoAmong(text, parsed, keys[1..])
  }

  /** msgArrayInfo; parsed is what JSON.parse makes of the text. */
  function MsgArrayInfo(text: Text, parsed: Option<Json>): Option<MsgInfo> {
    if parsed.None? then None else InfoAmong(text, parsed.value, MSG_KEYS)
  }

  // ---- the verdict ----

  datatype Kind = Strict | JsonTail | TailFields | MidInsert

  datatype Verdict = Appended(kind: Kind, countA: nat, countB: nat) | Rewritten(beforeArray: bool)

  /** String.slice with a start inside the text. */
  function Slice(t: Text, s: Span): Text {
    var to := if s.to <= |t| then s.to else |t|;
    if s.from <= to then t[s.from..to] else []
  }

  /** The first n elements stand at the same offsets with the same text. */
  predicate SharedOk(a: Text, b: Text, sa: seq<Span>, sb: seq<Span>, n: nat)
    requires n <= |sa| && n <= |sb|
  {
    forall i :: 0 <= i < n ==> sa[i] == sb[i] && Slice(a, sa[i]) == Slice(b, sb[i])
  }

  /** The gap between two shared elements that the offset falls into, or n. */
  function GapOf(spans: seq<Span>, n: nat, offset: nat, i: nat): (g: nat)
    requires n <= |spans| && i <= n
    ensures i <= g <= n && (g < n ==> g + 1 < n)
    decreases n - i
  {
    if i + 1 >= n then n
    else if spans[i].to <= offset <= spans[i + 1].from then i
    else GapOf(spans, n, offset, i + 1)
  }

  /** A gap without its commas and spaces. */
  function Glue(t: Text): Text {
    if t == [] then [] else (if t[0] == COMMA || Space(t[0]) then [] else [t[0]]) + Glue(t[1..])
  }

  function TailKind(ia: MsgInfo, ib: MsgInfo): Verdict {
    Appended(if |ib.items| > |ia.items| then JsonTail else TailFields, |ia.items|, |ib.items|)
  }

  /** What the two message lists decide; None leaves the question to the insertion test. */
  function ListVerdict(a: Text, b: Text, ia: MsgInfo, ib: MsgInfo, offset: nat): Option<Verdict> {
    var n := |ia.items|;
    if ia.key != ib.key || n == 0 || |ib.items| < n || |ia.spans| < n || |ib.spans| < n then None
    else if !SharedOk(a, b, ia.spans, ib.spans, n) then None
    else if offset >= ib.spans[n - 1].to then Some(TailKind(ia, ib))
    else if offset < ib.spans[0].from then Some(Rewritten(true))
    else
      var g := GapOf(ib.spans, n, offset, 0);
      if g < n && Glue(Slice(a, Span(ia.spans[g].to, ia.spans[g + 1].from)))
                  == Glue(Slice(b, Span(ib.spans[g].to, ib.spans[g + 1].from)))
      then Some(TailKind(ia, ib)) else None
  }

  predicate Ascii(t: Text) {
    forall i :: 0 <= i < |t| ==> t[i] < 128
  }

  function CountOf(i: Option<MsgInfo>): nat {
    if i.Some? then |i.value.items| else 0
  }

  /** compareWires on ASCII bodies, whose bytes are their text; pa and pb are what they parse to. */
  function CompareWires(a: Text, b: Text, pa: Option<Json>, pb: Option<Json>): Verdict
    requires Ascii(a) && Ascii(b)
  {
    var ia, ib := MsgArrayInfo(a, pa), MsgArrayInfo(b, pb);
    var offset := Lcp(a, b);
    if a <= b then Appended(Strict, CountOf(ia), CountOf(ib))
    else
      var lists := if ia.Some? && ib.Some? then ListVerdict(a, b, ia.value, ib.value, offset) else None;
      if lists.Some? then lists.value
      else if MidInsertion(a, b, offset) then Appended(MidInsert, CountOf(ia), CountOf(ib))
      else Rewritten(false)
  }

  // ---- the array that is meant ----

  /** The key whose list is meant: the first of the three with an array. */
  function MeantKey(fs: seq<Field>, keys: seq<Text>): (r: Option<Text>)
    ensures r.Some? ==> r.value in keys && Get(Obj(fs), r.value).Some? && Get(Obj(fs), r.value).value.Arr?
  {
    if keys == [] then None
    else
      match Get(Obj(fs), keys[0])
      case Some(Arr(_)) => Some(keys[0])
      case _ => MeantKey(fs, keys[1..])
  }

  /** Where the bracket of the key's own array stands in the serialized object. */
  function TopOf(fs: seq<Field>, key: Text): nat
    requires KeyIndex(fs, key) < |fs|
  {
    1 + |Before(fs, KeyIndex(fs, key))|
  }

  /** No earlier match of the key's pattern has as many elements. */
  predicate TopFirst(text: Text, key: Text, top: nat, count: nat) {
    forall s :: s in Matches(text, key, 0) && s < top ==> |SpansAt(text, s)| != count
  }

  predicate KeyLike(key: Text) {
    key != [] && QUOTE !in key && key[0] != COLON && !Space(key[0])
  }

  /** A match leaves no quote behind that could start another one before its bracket. */
  lemma NoOverlap(text: Text, key: Text, i: nat, at: nat)
    requires i < at && MatchAt(text, i, key).Some? && MatchAt(text, at, key).Some? && KeyLike(key)
    ensures MatchAt(text, i, key).value < at
  {
    var k, start := i + 1 + |key|, MatchAt(text, i, key).value;
    assert text[i + 1..k] == key;
    forall m | i < m < k ensures text[m] != QUOTE {
      assert text[m] == key[m - i - 1];
    }
    assert forall m :: k < m <= start ==> text[m] != QUOTE;
    assert text[at] == QUOTE && text[at + 1] == text[at + 1..at + 1 + |key|][0] == key[0];
    assert text[k + 1] != key[0];
  }

  /** A match is never skipped: the pattern cannot overlap itself. */
  lemma {:induction false} MatchIsFound(text: Text, key: Text, i: nat, at: nat)
    requires i <= at && MatchAt(text, at, key).Some? && KeyLike(key)
    ensures MatchAt(text, at, key).value in Matches(text, key, i)
    decreases |text| - i
  {
    hide MatchAt;
    if i < |text| {
      match MatchAt(text, i, key)
      case Some(start) =>
        if i < at {
          NoOverlap(text, key, i, at);
          MatchIsFound(text, key, start + 1, at);
        }
      case None => MatchIsFound(text, key, i + 1, at);
    }
  }

  lemma SkipSpaceStays(text: Text, i: nat)
    requires i < |text| && !Space(text[i])
    ensures SkipSpace(text, i) == i
  {
  }

  predicate Letters(t: Text) {
    t != [] && forall i :: 0 <= i < |t| ==> IsLower(t[i])
  }

  lemma LettersAreKeyLike(key: Text)
    requires Letters(key)
    ensures KeyLike(key)
  {
    assert IsLower(key[0]) && forall i :: 0 <= i < |key| ==> IsLower(key[i]);
  }

  lemma MsgKeysAreLetters(key: Text)
    requires key in MSG_KEYS
    ensures Letters(key)
  {
  }

  /** A member with an array value is a match of the pattern for its key. */
  lemma ArrayMemberMatches(key: Text, pre: Text, post: Text)
    requires Letters(key)
    ensures var text := pre + Quote(key) + [COLON] + ([OPEN_ARRAY] + post);
      MatchAt(text, |pre|, key) == Some(|pre| + |key| + 3)
  {
    hide Escape;
    EscapeLetters(key);
    var text := pre + Quote(key) + [COLON] + ([OPEN_ARRAY] + post);
    var k := |pre| + 1 + |key|;
    assert text[|pre|] == QUOTE && text[k] == QUOTE && text[k + 1] == COLON && text[k + 2] == OPEN_ARRAY;
    assert text[|pre| + 1..k] == key;
    SkipSpaceStays(text, k + 1);
    SkipSpaceStays(text, k + 2);
  }

  /** The text is a printed value with something around it. */
  predicate Cut(text: Text, pre: Text, v: Json, post: Text) {
    text == pre + Stringify(v) + post
  }

  /** The serialized object up to the value of member k, and after it. */
  function PreOf(fs: seq<Field>, k: nat): Text
    requires k < |fs|
  {
    [OPEN_OBJECT] + Before(fs, k)
  }

  function PostOf(fs: seq<Field>, k: nat): Text
    requires k < |fs|
  {
    Rest(fs[k + 1..]) + [CLOSE_OBJECT]
  }

  /** The serialized object around the value of member k. */
  lemma CutAtMember(fs: seq<Field>, k: nat)
    requires k < |fs|
    ensures Cut(Stringify(Obj(fs)), PreOf(fs, k), fs[k].val, PostOf(fs, k))
  {
    hide Members, Quote, Lead, Rest, Before, Print;
    CutAtValue(fs, k);
    ObjectText(fs);
    Around(Before(fs, k), Stringify(fs[k].val), Rest(fs[k + 1..]));
  }

  /** The same text around the key of an array member: that is where its match starts. */
  lemma CutAtKey(fs: seq<Field>, k: nat)
    requires k < |fs| && fs[k].val.Arr?
    ensures Stringify(Obj(fs)) == ([OPEN_OBJECT] + Lead(fs, k)) + Quote(fs[k].key) + [COLON]
                                  + ([OPEN_ARRAY] + (PrintItems(fs[k].val.elems, Plain) + [CLOSE_ARRAY] + PostOf(fs, k)))
  {
    hide Members, Quote, Lead, Rest, PrintItems;
    CutAtMember(fs, k);
    LaidOut(Lead(fs, k), Quote(fs[k].key), PrintItems(fs[k].val.elems, Plain), PostOf(fs, k));
  }

  /** The serialized object around the array of the key. */
  lemma CutAtTop(fs: seq<Field>, key: Text)
    requires KeyIndex(fs, key) < |fs| && fs[KeyIndex(fs, key)].val.Arr? && Letters(key)
    ensures var k, text := KeyIndex(fs, key), Stringify(Obj(fs));
      && Cut(text, PreOf(fs, k), fs[k].val, PostOf(fs, k)) && |PreOf(fs, k)| == TopOf(fs, key) < |text|
      && TopOf(fs, key) in Matches(text, key, 0)
  {
    hide Members, Quote, Lead, Rest, PrintItems, MatchAt, Matches, Letters, Print, Cut, PostOf;
    var k := KeyIndex(fs, key);
    var lead := [OPEN_OBJECT] + Lead(fs, k);
    CutAtMember(fs, k);
    CutAtKey(fs, k);
    ArrayMemberMatches(key, lead, PrintItems(fs[k].val.elems, Plain) + [CLOSE_ARRAY] + PostOf(fs, k));
    LettersAreKeyLike(key);
    QuotedLength(key);
    hide Stringify;
    MatchIsFound(Stringify(Obj(fs)), key, 0, |lead|);
  }

  lemma LaidOut(lead: Text, q: Text, items: Text, post: Text)
    ensures ([OPEN_OBJECT] + (lead + q + [COLON])) + ([OPEN_ARRAY] + items + [CLOSE_ARRAY]) + post
      == ([OPEN_OBJECT] + lead) + q + [COLON] + ([OPEN_ARRAY] + (items + [CLOSE_ARRAY] + post))
  {
  }

  lemma QuotedLength(key: Text)
    requires Letters(key)
    ensures |Quote(key)| == |key| + 2
  {
    EscapeLetters(key);
  }

  lemma ObjectText(fs: seq<Field>)
    ensures Stringify(Obj(fs)) == [OPEN_OBJECT] + Members(fs) + [CLOSE_OBJECT]
  {
    hide JoinMembers, PrintMembers;
  }

  lemma Around(b: Text, v: Text, r: Text)
    ensures [OPEN_OBJECT] + (b + v + r) + [CLOSE_OBJECT] == ([OPEN_OBJECT] + b) + v + (r + [CLOSE_OBJECT])
  {
  }

  predicate Ascending(s: seq<nat>) {
    forall i, j :: 0 <= i < j < |s| ==> s[i] < s[j]
  }

  lemma {:induction false} MatchesAscend(text: Text, key: Text, i: nat)
    ensures Ascending(Matches(text, key, i))
    decreases |text| - i
  {
    hide MatchAt;
    if i < |text| {
      match MatchAt(text, i, key)
      case Some(start) =>
        MatchesAscend(text, key, start + 1);
        var rest := Matches(text, key, start + 1);
        forall k | 0 <= k < |rest| ensures start < rest[k] {
          assert rest[k] in rest;
        }
      case None => MatchesAscend(text, key, i + 1);
    }
  }

  /** Among ascending candidates the first fitting one is the least. */
  lemma {:induction false} FittingIsLeast(text: Text, starts: seq<nat>, count: nat, s: nat)
    requires Ascending(starts) && (forall k :: 0 <= k < |starts| ==> starts[k] < |text|)
    requires s in starts && |SpansAt(text, s)| == count
    ensures FirstFitting(text, starts, count).Some? && FirstFitting(text, starts, count).value <= s
    decreases |starts|
  {
    hide SpansAt;
    if |SpansAt(text, starts[0])| != count {
      FittingIsLeast(text, starts[1..], count, s);
    }
  }

  /** Spans begin where the scan begins, blanks aside. */
  lemma FirstSpanIsClose(text: Text, start: nat, top: nat)
    requires start < top < |text| && text[top] == OPEN_ARRAY
    ensures var spans := SpansAt(text, start); spans != [] ==> spans[0].from <= top
  {
    hide ElementLength, Further;
    var s := text[start + 1..];
    assert s[top - start - 1] == text[top];
    assert Blanks(s) <= top - start - 1;
  }

  /** The candidate taken is the array's own bracket exactly when no earlier one has as many elements. */
  lemma FitIsTop(text: Text, starts: seq<nat>, fit: nat, top: nat, items: seq<Json>)
    requires forall s :: s in starts ==> s < |text|
    requires top in starts && fit in starts && fit <= top && text[top] == OPEN_ARRAY && items != []
    requires |SpansAt(text, fit)| == |items| && SpansAt(text, top) == ElementsAt(items, top + 1)
    requires forall s :: s in starts && |SpansAt(text, s)| == |items| ==> fit <= s
    ensures SpansAt(text, fit) == ElementsAt(items, top + 1) <==>
            forall s :: s in starts && s < top ==> |SpansAt(text, s)| != |items|
  {
    hide SpansAt, ElementsAt;
    if fit < top {
      FirstSpanIsClose(text, fit, top);
      FirstElementAt(items, top + 1);
    }
  }

  lemma FitTaken(text: Text, parsed: Json, key: Text, items: seq<Json>, fit: nat)
    requires Get(parsed, key) == Some(Arr(items)) && fit < |text|
    requires var starts := Matches(text, key, 0);
      && starts != [] && (forall k :: 0 <= k < |starts| ==> starts[k] < |text|)
      && FirstFitting(text, starts, |items|) == Some(fit)
    ensures InfoFor(text, parsed, key) == Some(MsgInfo(key, SpansAt(text, fit), items))
  {
    hide Matches, SpansAt, FirstFitting, Get;
  }

  lemma MeantMember(fs: seq<Field>, key: Text)
    requires MeantKey(fs, MSG_KEYS) == Some(key)
    ensures KeyIndex(fs, key) < |fs| && fs[KeyIndex(fs, key)].val.Arr?
    ensures Get(Obj(fs), key) == Some(fs[KeyIndex(fs, key)].val) && key in MSG_KEYS
  {
    hide MeantKey;
  }

  /**
   * The scanner reports exactly the elements of the list that is meant, if and only if no earlier match of the
   * key has as many elements.
   */
  lemma InfoIsMeant(fs: seq<Field>, key: Text)
    requires WellFormed(Obj(fs)) && MeantKey(fs, MSG_KEYS) == Some(key) && Get(Obj(fs), key).value.elems != []
    ensures KeyIndex(fs, key) < |fs|
    ensures var text, top, items := Stringify(Obj(fs)), TopOf(fs, key), Get(Obj(fs), key).value.elems;
      match MsgArrayInfo(text, Some(Obj(fs))) {
        case Some(info) =>
          && info.key == key && info.items == items && |info.spans| == |items|
          && (info.spans == ElementsAt(items, top + 1) <==> TopFirst(text, key, top, |items|))
        case None => false
      }
  {
    hide Matches, SpansAt, Before, ElementsAt, InfoAmong, InfoFor, MeantKey, Stringify, WellFormed, Letters, Get;
    MeantMember(fs, key);
    var text, top := Stringify(Obj(fs)), TopOf(fs, key);
    var items := fs[KeyIndex(fs, key)].val.elems;
    MsgKeysAreLetters(key);
    CutAtTop(fs, key);
    TopSpans(fs, key);
    var starts := Matches(text, key, 0);
    MatchesAscend(text, key, 0);
    assert forall i :: 0 <= i < |starts| ==> starts[i] in starts;
    FittingIsLeast(text, starts, |items|, top);
    var fit := FirstFitting(text, starts, |items|).value;
    FitTaken(text, Obj(fs), key, items, fit);
    MeantIsTried(text, fs, MSG_KEYS, key);
    hide FirstFitting, Ascending;
    forall s | s in starts && |SpansAt(text, s)| == |items| ensures fit <= s {
      FittingIsLeast(text, starts, |items|, s);
    }
    FitIsTop(text, starts, fit, top, items);
  }

  lemma FirstElementAt(es: seq<Json>, at: nat)
    requires es != []
    ensures ElementsAt(es, at) != [] && ElementsAt(es, at)[0].from == at
  {
  }

  lemma TopSpans(fs: seq<Field>, key: Text)
    requires WellFormed(Obj(fs)) && KeyIndex(fs, key) < |fs| && fs[KeyIndex(fs, key)].val.Arr? && Letters(key)
    ensures ShowsAt(Stringify(Obj(fs)), TopOf(fs, key), fs[KeyIndex(fs, key)].val.elems)
  {
    var k := KeyIndex(fs, key);
    ElementsWellFormed(fs, k);
    CutAtTop(fs, key);
    var es, pre, post := fs[k].val.elems, PreOf(fs, k), PostOf(fs, k);
    assert fs[k].val == Arr(es);
    hide *;
    SpansInside(Stringify(Obj(fs)), es, pre, post);
  }

  /** The scan from this bracket shows exactly these elements. */
  predicate ShowsAt(text: Text, top: nat, es: seq<Json>) {
    && top < |text| && text[top] == OPEN_ARRAY
    && SpansAt(text, top) == ElementsAt(es, top + 1) && |ElementsAt(es, top + 1)| == |es|
  }

  lemma ElementsWellFormed(fs: seq<Field>, k: nat)
    requires WellFormed(Obj(fs)) && k < |fs| && fs[k].val.Arr?
    ensures forall i :: 0 <= i < |fs[k].val.elems| ==> WellFormed(fs[k].val.elems[i])
  {
    assert WellFormed(fs[k].val);
  }

  lemma SpansInside(text: Text, es: seq<Json>, pre: Text, post: Text)
    requires (forall i :: 0 <= i < |es| ==> WellFormed(es[i])) && Cut(text, pre, Arr(es), post)
    ensures ShowsAt(text, |pre|, es)
  {
    hide PrintItems, Spans, ElementsAt, WellFormed;
    AfterBracket(text, pre, PrintItems(es, Plain), post);
    hide Cut, Stringify;
    SpansAreElements(es, post, |pre| + 1);
    SameLength(es, |pre| + 1);
  }

  lemma AfterBracket(text: Text, pre: Text, items: Text, post: Text)
    requires text == pre + ([OPEN_ARRAY] + items + [CLOSE_ARRAY]) + post
    ensures |pre| < |text| && text[|pre|] == OPEN_ARRAY && text[|pre| + 1..] == items + ([CLOSE_ARRAY] + post)
  {
  }

  /** Keys tried before the meant one have no array, so they give nothing. */
  lemma {:induction false} MeantIsTried(text: Text, fs: seq<Field>, keys: seq<Text>, key: Text)
    requires MeantKey(fs, keys) == Some(key) && InfoFor(text, Obj(fs), key).Some?
    ensures InfoAmong(text, Obj(fs), keys) == InfoFor(text, Obj(fs), key)
    decreases |keys|
  {
    hide Matches, Get;
    if keys[0] != key {
      MeantIsTried(text, fs, keys[1..], key);
    }
  }

  // ---- what the verdicts mean ----

  /** The scanner sees, in this body, exactly the list that is meant, and the list is not empty. */
  predicate SeesItsList(fs: seq<Field>, key: Text) {
    && WellFormed(Obj(fs)) && MeantKey(fs, MSG_KEYS) == Some(key) && KeyIndex(fs, key) < |fs|
    && Get(Obj(fs), key).value.elems != []
    && TopFirst(Stringify(Obj(fs)), key, TopOf(fs, key), |Get(Obj(fs), key).value.elems|)
  }

  predicate IsTail(v: Verdict) {
    v.Appended? && (v.kind == JsonTail || v.kind == TailFields)
  }

  /** A tail verdict rests on the shared elements having the same offsets and text. */
  lemma TailNeedsShared(a: Text, b: Text, ia: MsgInfo, ib: MsgInfo, offset: nat)
    requires ListVerdict(a, b, ia, ib, offset).Some? && IsTail(ListVerdict(a, b, ia, ib, offset).value)
    ensures ia.key == ib.key && |ia.items| <= |ib.items| && |ia.items| <= |ia.spans| && |ia.items| <= |ib.spans|
    ensures SharedOk(a, b, ia.spans, ib.spans, |ia.items|)
    ensures ListVerdict(a, b, ia, ib, offset).value == TailKind(ia, ib)
  {
    hide SharedOk, Slice, Glue, GapOf;
  }

  /** The spans of the elements at the top cut out their texts. */
  lemma TopSlice(fs: seq<Field>, key: Text, i: nat)
    requires SeesItsList(fs, key) && i < |Get(Obj(fs), key).value.elems|
    ensures var text, items := Stringify(Obj(fs)), Get(Obj(fs), key).value.elems;
      |ElementsAt(items, TopOf(fs, key) + 1)| == |items|
      && Slice(text, ElementsAt(items, TopOf(fs, key) + 1)[i]) == Stringify(items[i])
  {
    hide Matches, TopFirst, PreOf, PostOf, ElementsAt, Letters, WellFormed, Stringify, TopOf, Cut, Slice;
    var k := KeyIndex(fs, key);
    var items := Get(Obj(fs), key).value.elems;
    MsgKeysAreLetters(key);
    CutAtTop(fs, key);
    ElementSlice(Stringify(Obj(fs)), items, PreOf(fs, k), PostOf(fs, k), i);
  }

  lemma ElementSlice(text: Text, es: seq<Json>, pre: Text, post: Text, i: nat)
    requires Cut(text, pre, Arr(es), post) && i < |es|
    ensures |ElementsAt(es, |pre| + 1)| == |es| && Slice(text, ElementsAt(es, |pre| + 1)[i]) == Stringify(es[i])
  {
    hide PrintItems, ElementsAt;
    var head := pre + [OPEN_ARRAY];
    assert text == head + PrintItems(es, Plain) + ([CLOSE_ARRAY] + post);
    ElementsCutOut(es, head, [CLOSE_ARRAY] + post, i);
  }

  /** The list the key stands for. */
  function ListOf(fs: seq<Field>, key: Text): seq<Json> {
    match Get(Obj(fs), key) case Some(Arr(items)) => items case _ => []
  }

  /** The shared messages have the same text, one by one. */
  predicate SameShared(a: seq<Json>, b: seq<Json>) {
    |a| <= |b| && forall i :: 0 <= i < |a| ==> Stringify(a[i]) == Stringify(b[i])
  }

  /**
   * On serialized bodies whose lists the scanner sees, a json-tail or tail-fields verdict means that every
   * message of the older body is, byte for byte, the message at its place in the newer one.
   */
  lemma TailMeansSameMessages(fa: seq<Field>, fb: seq<Field>, ka: Text, kb: Text)
    requires SeesItsList(fa, ka) && SeesItsList(fb, kb)
    requires Ascii(Stringify(Obj(fa))) && Ascii(Stringify(Obj(fb)))
    ensures var v := CompareWires(Stringify(Obj(fa)), Stringify(Obj(fb)), Some(Obj(fa)), Some(Obj(fb)));
      IsTail(v) ==>
        && ka == kb && SameShared(ListOf(fa, ka), ListOf(fb, kb))
        && (v.kind == JsonTail <==> |ListOf(fb, kb)| > |ListOf(fa, ka)|)
  {
    hide MsgArrayInfo, ListVerdict, ElementsAt, SharedOk, SeesItsList, CompareWires, Lcp, Stringify, TopOf, ListOf;
    hide SameShared;
    SeenInfo(fa, ka);
    SeenInfo(fb, kb);
    var ta, tb := Stringify(Obj(fa)), Stringify(Obj(fb));
    if IsTail(CompareWires(ta, tb, Some(Obj(fa)), Some(Obj(fb)))) {
      TailComesFromLists(ta, tb, Some(Obj(fa)), Some(Obj(fb)));
      var ia, ib := MsgArrayInfo(ta, Some(Obj(fa))).value, MsgArrayInfo(tb, Some(Obj(fb))).value;
      TailNeedsShared(ta, tb, ia, ib, Lcp(ta, tb));
      SharedAreSame(fa, fb, ka, kb);
    }
  }

  lemma SharedAreSame(fa: seq<Field>, fb: seq<Field>, ka: Text, kb: Text)
    requires SeesItsList(fa, ka) && SeesItsList(fb, kb) && |ListOf(fa, ka)| <= |ListOf(fb, kb)|
    requires var sa, sb := ElementsAt(ListOf(fa, ka), TopOf(fa, ka) + 1), ElementsAt(ListOf(fb, kb), TopOf(fb, kb) + 1);
      |sa| == |ListOf(fa, ka)| && |sb| == |ListOf(fb, kb)|
      && SharedOk(Stringify(Obj(fa)), Stringify(Obj(fb)), sa, sb, |ListOf(fa, ka)|)
    ensures SameShared(ListOf(fa, ka), ListOf(fb, kb))
  {
    hide ElementsAt, SharedOk, TopFirst, TopOf, Slice, Print, Matches, WellFormed;
    var a, b := ListOf(fa, ka), ListOf(fb, kb);
    var sa, sb := ElementsAt(a, TopOf(fa, ka) + 1), ElementsAt(b, TopOf(fb, kb) + 1);
    forall i | 0 <= i < |a| ensures Stringify(a[i]) == Stringify(b[i]) {
      SharedAt(Stringify(Obj(fa)), Stringify(Obj(fb)), sa, sb, |a|, i);
      TopSlice(fa, ka, i);
      TopSlice(fb, kb, i);
    }
  }

  lemma SeenInfo(fs: seq<Field>, key: Text)
    requires SeesItsList(fs, key)
    ensures KeyIndex(fs, key) < |fs|
    ensures |ElementsAt(ListOf(fs, key), TopOf(fs, key) + 1)| == |ListOf(fs, key)|
    ensures MsgArrayInfo(Stringify(Obj(fs)), Some(Obj(fs))) ==
      Some(MsgInfo(key, ElementsAt(ListOf(fs, key), TopOf(fs, key) + 1), ListOf(fs, key)))
  {
    hide MsgArrayInfo, ElementsAt, TopFirst, Print, WellFormed, Before;
    InfoIsMeant(fs, key);
    SameLength(ListOf(fs, key), TopOf(fs, key) + 1);
  }

  lemma TailComesFromLists(a: Text, b: Text, pa: Option<Json>, pb: Option<Json>)
    requires Ascii(a) && Ascii(b) && IsTail(CompareWires(a, b, pa, pb))
    ensures var ia, ib := MsgArrayInfo(a, pa), MsgArrayInfo(b, pb);
      && ia.Some? && ib.Some? && ListVerdict(a, b, ia.value, ib.value, Lcp(a, b)) == Some(CompareWires(a, b, pa, pb))
  {
    hide MsgArrayInfo, ListVerdict, Lcp, MidInsertion;
  }

  lemma SharedAt(a: Text, b: Text, sa: seq<Span>, sb: seq<Span>, n: nat, i: nat)
    requires i < n <= |sa| && n <= |sb| && SharedOk(a, b, sa, sb, n)
    ensures Slice(a, sa[i]) == Slice(b, sb[i])
  {
    hide Slice;
  }

  // ---- a namesake inside another member ----

  const OUTER: Text := Lit("m")

  /** A request whose first member holds a list under the same key. */
  function Namesake(inner: seq<Json>, list: seq<Json>): seq<Field> {
    [Field(OUTER, Obj([Field(MESSAGES, Arr(inner))])), Field(MESSAGES, Arr(list))]
  }

  function NamesakeLead(): Text {
    [OPEN_OBJECT] + Quote(OUTER) + [COLON, OPEN_OBJECT]
  }

  function NamesakePre(): Text {
    NamesakeLead() + Quote(MESSAGES) + [COLON]
  }

  function NamesakePost(list: seq<Json>): Text {
    [CLOSE_OBJECT, COMMA] + Quote(MESSAGES) + [COLON] + Stringify(Arr(list)) + [CLOSE_OBJECT]
  }

  lemma NamesakeText(inner: seq<Json>, list: seq<Json>)
    ensures Cut(Stringify(Obj(Namesake(inner, list))), NamesakePre(), Arr(inner), NamesakePost(list))
  {
    hide Quote, PrintItems;
    var fs := Namesake(inner, list);
    var nested := [Field(MESSAGES, Arr(inner))];
    ObjectText(fs);
    ObjectText(nested);
    MembersStep(fs);
    MembersStep(nested);
    assert nested[1..] == [] && fs[1..] == [Field(MESSAGES, Arr(list))];
    MembersStep(fs[1..]);
    assert fs[1..][1..] == [];
    hide Members, Stringify;
    var v, l, o, m := Stringify(Arr(inner)), Stringify(Arr(list)), Quote(OUTER), Quote(MESSAGES);
    assert Rest([]) == [];
    Assembled(o, m, v, l);
  }

  lemma Assembled(o: Text, m: Text, v: Text, l: Text)
    ensures [OPEN_OBJECT] + (o + [COLON] + ([OPEN_OBJECT] + (m + [COLON] + v + []) + [CLOSE_OBJECT])
                             + ([COMMA] + (m + [COLON] + l + []))) + [CLOSE_OBJECT]
      == ([OPEN_OBJECT] + o + [COLON, OPEN_OBJECT] + m + [COLON]) + v
         + ([CLOSE_OBJECT, COMMA] + m + [COLON] + l + [CLOSE_OBJECT])
  {
  }

  /** The first match of the pattern is the namesake. */
  lemma NamesakeFirst(inner: seq<Json>, list: seq<Json>)
    ensures var text := Stringify(Obj(Namesake(inner, list)));
      |NamesakePre()| == 17 && Matches(text, MESSAGES, 0) != [] && Matches(text, MESSAGES, 0)[0] == 17
  {
    var text := Stringify(Obj(Namesake(inner, list)));
    LeadIs();
    NamesakeText(inner, list);
    hide NamesakeLead, NamesakePost, Quote, PrintItems, Matches, MatchAt;
    Front(NamesakeLead(), MESSAGES, PrintItems(inner, Plain), NamesakePost(list));
    assert Stringify(Arr(inner)) == [OPEN_ARRAY] + PrintItems(inner, Plain) + [CLOSE_ARRAY];
    hide Stringify;
    FirstIsSeventeen(text, PrintItems(inner, Plain) + [CLOSE_ARRAY] + NamesakePost(list));
  }

  lemma LeadIs()
    ensures NamesakeLead() == [123, 34, 109, 34, 58, 123] && |Quote(MESSAGES)| == 10
  {
    OuterQuoted();
    MessagesQuoted();
    hide Quote;
  }

  lemma OuterQuoted()
    ensures Quote(OUTER) == [34, 109, 34]
  {
    EscapeLetters(OUTER);
    hide Escape;
    assert OUTER == [109];
  }

  lemma MessagesQuoted()
    ensures |Quote(MESSAGES)| == 10
  {
    MsgKeysAreLetters(MESSAGES);
    QuotedLength(MESSAGES);
    hide Quote;
  }

  lemma FirstIsSeventeen(text: Text, rest: Text)
    requires text == [123, 34, 109, 34, 58, 123] + Quote(MESSAGES) + [COLON] + ([OPEN_ARRAY] + rest)
    ensures Matches(text, MESSAGES, 0) != [] && Matches(text, MESSAGES, 0)[0] == 17
  {
    hide Quote, Matches, MatchAt;
    var lead: Text := [123, 34, 109, 34, 58, 123];
    MsgKeysAreLetters(MESSAGES);
    ArrayMemberMatches(MESSAGES, lead, rest);
    assert |MESSAGES| == 8;
    assert text[..6] == lead;
    assert text[0] == 123 && text[1] == 34 && text[2] == 109 && text[3] == 34 && text[4] == 58 && text[5] == 123;
    forall i: nat | i < 6 ensures MatchAt(text, i, MESSAGES).None? {
      NoMatch(text, i);
    }
    WalkTo(text, MESSAGES, 0, 6);
  }

  lemma Front(lead: Text, key: Text, items: Text, post: Text)
    ensures (lead + Quote(key) + [COLON]) + ([OPEN_ARRAY] + items + [CLOSE_ARRAY]) + post
      == lead + Quote(key) + [COLON] + ([OPEN_ARRAY] + (items + [CLOSE_ARRAY] + post))
  {
    hide Quote;
  }

  /** The second character after a quote is not that of the key. */
  lemma NoMatch(text: Text, i: nat)
    requires |text| > 6 && i < 6
    requires text[0] == 123 && text[1] == 34 && text[2] == 109 && text[3] == 34 && text[4] == 58 && text[5] == 123
    ensures MatchAt(text, i, MESSAGES).None?
  {
    assert MESSAGES[0] == 109 && MESSAGES[1] == 101;
    var k := i + 1 + |MESSAGES|;
    if k < |text| && text[i + 1..k] == MESSAGES {
      assert text[i + 1] == text[i + 1..k][0] && text[i + 2] == text[i + 1..k][1];
    }
  }

  lemma {:induction false} WalkTo(text: Text, key: Text, i: nat, at: nat)
    requires i <= at < |text| && MatchAt(text, at, key).Some?
    requires forall j: nat :: i <= j < at ==> MatchAt(text, j, key).None?
    ensures Matches(text, key, i) != [] && Matches(text, key, i)[0] == MatchAt(text, at, key).value
    decreases at - i
  {
    hide MatchAt;
    if i < at {
      WalkTo(text, key, i + 1, at);
    }
  }

  /** When the namesake has as many elements as the message list, the scanner reports the namesake. */
  lemma NamesakeIsReported(inner: seq<Json>, list: seq<Json>)
    requires (forall i :: 0 <= i < |inner| ==> WellFormed(inner[i])) && |inner| == |list|
    ensures var fs := Namesake(inner, list);
      MsgArrayInfo(Stringify(Obj(fs)), Some(Obj(fs))) == Some(MsgInfo(MESSAGES, ElementsAt(inner, 18), list))
  {
    hide Matches, SpansAt, ElementsAt, Stringify, NamesakePre, NamesakePost, Cut;
    var fs := Namesake(inner, list);
    var text := Stringify(Obj(fs));
    NamesakeText(inner, list);
    NamesakeFirst(inner, list);
    SpansInside(text, inner, NamesakePre(), NamesakePost(list));
    assert OUTER[0] == 109 && |OUTER| == 1 && |MESSAGES| == 8;
    KeyIndexIs(fs, MESSAGES, 1);
    assert InfoFor(text, Obj(fs), MESSAGES) == Some(MsgInfo(MESSAGES, ElementsAt(inner, 18), list));
  }

  /**
   * A grown namesake hides any rewrite of the messages: the verdict is json-tail whatever the old and the new
   * message are.
   */
  lemma NamesakeHidesRewrite(one: Json, two: Json, x: Json, y: Json, z: Json)
    requires WellFormed(one) && WellFormed(two)
    requires Ascii(Stringify(Obj(Namesake([one], [x])))) && Ascii(Stringify(Obj(Namesake([one, two], [y, z]))))
    ensures var fa, fb := Namesake([one], [x]), Namesake([one, two], [y, z]);
      CompareWires(Stringify(Obj(fa)), Stringify(Obj(fb)), Some(Obj(fa)), Some(Obj(fb))) == Appended(JsonTail, 1, 2)
  {
    hide Stringify, NamesakePre, NamesakePost, Cut, MsgArrayInfo, ListVerdict, Lcp, WellFormed;
    var fa, fb := Namesake([one], [x]), Namesake([one, two], [y, z]);
    var a, b := Stringify(Obj(fa)), Stringify(Obj(fb));
    NamesakeIsReported([one], [x]);
    NamesakeIsReported([one, two], [y, z]);
    NamesakeDiverges(one, two, [x], [y, z]);
    NamesakeVerdict(one, two, [x], [y, z], 18 + |Stringify(one)|);
  }

  lemma Shifted(pre: Text, t: Text, more: Text, close: Text, post: Text)
    ensures pre + ([OPEN_ARRAY] + (t + more) + close) + post == pre + [OPEN_ARRAY] + t + (more + close + post)
  {
  }

  lemma NamesakeDiverges(one: Json, two: Json, la: seq<Json>, lb: seq<Json>)
    requires Ascii(Stringify(Obj(Namesake([one], la)))) && Ascii(Stringify(Obj(Namesake([one, two], lb))))
    ensures var a, b := Stringify(Obj(Namesake([one], la))), Stringify(Obj(Namesake([one, two], lb)));
      !(a <= b) && Lcp(a, b) == 18 + |Stringify(one)|
  {
    hide NamesakePre, NamesakePost, Ascii;
    var a, b := Stringify(Obj(Namesake([one], la))), Stringify(Obj(Namesake([one, two], lb)));
    NamesakeText([one], la);
    NamesakeText([one, two], lb);
    NamesakeFirst([one], la);
    var pre, t, u := NamesakePre(), Stringify(one), Stringify(two);
    OneItem(one);
    TwoItems(one, two);
    hide Print, Stringify, Namesake;
    Shifted(pre, t, [], [CLOSE_ARRAY], NamesakePost(la));
    Shifted(pre, t, [COMMA] + u, [CLOSE_ARRAY], NamesakePost(lb));
    assert t + [COMMA] + u == t + ([COMMA] + u) && t + [] == t;
    Diverging(a, b, pre + [OPEN_ARRAY] + t, [] + [CLOSE_ARRAY] + NamesakePost(la),
              [COMMA] + u + [CLOSE_ARRAY] + NamesakePost(lb));
  }

  lemma OneItem(v: Json)
    ensures Stringify(Arr([v])) == [OPEN_ARRAY] + Stringify(v) + [CLOSE_ARRAY]
  {
    var es := [v];
    assert PrintItems(es, Plain) == Print(es[0], Plain);
  }

  lemma TwoItems(v: Json, w: Json)
    ensures Stringify(Arr([v, w])) == [OPEN_ARRAY] + (Stringify(v) + [COMMA] + Stringify(w)) + [CLOSE_ARRAY]
  {
    var es := [v, w];
    var last := es[1..];
    assert last == [w];
    assert PrintItems(last, Plain) == Print(w, Plain);
    assert PrintItems(es, Plain) == Print(v, Plain) + [COMMA] + PrintItems(last, Plain);
  }

  lemma Diverging(a: Text, b: Text, p: Text, x: Text, y: Text)
    requires Ascii(a) && Ascii(b)
    requires a == p + x && b == p + y && x != [] && y != [] && x[0] != y[0]
    ensures !(a <= b) && Lcp(a, b) == |p|
  {
    var k := |p|;
    assert a[k] == x[0] && b[k] == y[0];
    assert a[..k] == p == b[..k];
    LcpIs(a, b, k);
  }

  lemma NamesakeVerdict(one: Json, two: Json, la: seq<Json>, lb: seq<Json>, offset: nat)
    requires |la| == 1 && |lb| == 2 && offset == 18 + |Stringify(one)|
    ensures var a, b := Stringify(Obj(Namesake([one], la))), Stringify(Obj(Namesake([one, two], lb)));
      ListVerdict(a, b, MsgInfo(MESSAGES, ElementsAt([one], 18), la),
                  MsgInfo(MESSAGES, ElementsAt([one, two], 18), lb), offset)
      == Some(Appended(JsonTail, 1, 2))
  {
    hide Slice, GapOf, Glue, Stringify, NamesakePre, NamesakePost, Cut;
    var a, b := Stringify(Obj(Namesake([one], la))), Stringify(Obj(Namesake([one, two], lb)));
    NamesakeText([one], la);
    NamesakeText([one, two], lb);
    NamesakeFirst([one], la);
    ElementSlice(a, [one], NamesakePre(), NamesakePost(la), 0);
    ElementSlice(b, [one, two], NamesakePre(), NamesakePost(lb), 0);
  }
}
