/** The chain checkpoint tag: what is rendered, what is accepted, and that the two agree. */
module Checkpoint {
  import opened Texts
  import opened Seqs

  datatype ChainCheckpoint = ChainCheckpoint(v: nat, processor: Text, issuedAt: nat, requestId: Text, digest: Text)

  const MAX_CHECKPOINT_CHARS := 512
  const TAG_OPEN: Text := Lit("<bili-chain ")
  const TAG_CLOSE: Text := Lit("/>")
  const SUPPORTED_VERSION := 1

  const V: Text := Lit("v")
  const PROCESSOR: Text := Lit("processor")
  const ISSUED_AT: Text := Lit("issued-at")
  const REQUEST_ID: Text := Lit("request-id")
  const DIGEST: Text := Lit("digest")

  predicate IsAttrName(n: Text) {
    n == V || n == PROCESSOR || n == ISSUED_AT || n == REQUEST_ID || n == DIGEST
  }

  // ---- the character classes of the grammar ----

  /** White space as \s matches it. */
  predicate IsSpace(c: CodeUnit) {
    9 <= c <= 13 || c == 32 || c == 0xA0 || c == 0x1680 || 0x2000 <= c <= 0x200A
    || c == 0x2028 || c == 0x2029 || c == 0x202F || c == 0x205F || c == 0x3000 || c == 0xFEFF
  }

  predicate NameChar(c: CodeUnit) {
    IsLower(c) || IsDigit(c) || c == 45
  }

  predicate ProcessorChar(c: CodeUnit) {
    IsUpper(c) || IsLower(c) || IsDigit(c) || c == 46 || c == 95 || c == 45
  }

  predicate RequestChar(c: CodeUnit) {
    ProcessorChar(c) || c == 58
  }

  predicate HexChar(c: CodeUnit) {
    IsDigit(c) || 97 <= c <= 102
  }

  predicate AllDigits(t: Text) {
    forall i :: 0 <= i < |t| ==> IsDigit(t[i])
  }

  predicate ValidVersion(t: Text) {
    |t| > 0 && AllDigits(t) && FromDecimal(t) >= 1
  }

  predicate ValidTime(t: Text) {
    1 <= |t| <= 16 && AllDigits(t)
  }

  predicate ValidProcessor(t: Text) {
    1 <= |t| <= 64 && forall i :: 0 <= i < |t| ==> ProcessorChar(t[i])
  }

  predicate ValidRequestId(t: Text) {
    1 <= |t| <= 64 && forall i :: 0 <= i < |t| ==> RequestChar(t[i])
  }

  predicate ValidDigest(t: Text) {
    |t| == 71 && t[..7] == Lit("sha256:") && forall i :: 7 <= i < |t| ==> HexChar(t[i])
  }

  // ---- parsing ----

  function WordLength(t: Text): (n: nat)
    ensures n <= |t|
    ensures forall i :: 0 <= i < n ==> !IsSpace(t[i])
    ensures n < |t| ==> IsSpace(t[n])
  {
    if t == [] || IsSpace(t[0]) then 0 else 1 + WordLength(t[1..])
  }

  function GapLength(t: Text): (n: nat)
    ensures n <= |t|
    ensures forall i :: 0 <= i < n ==> IsSpace(t[i])
    ensures n < |t| ==> !IsSpace(t[n])
  {
    if t == [] || !IsSpace(t[0]) then 0 else 1 + GapLength(t[1..])
  }

  /** t.split(/\s+/). */
  function Split(t: Text): seq<Text>
    decreases |t|
  {
    var w := WordLength(t);
    if w == |t| then [t]
    else
      var rest := t[w..];
      [t[..w]] + Split(rest[GapLength(rest)..])
  }

  datatype Attr = Attr(name: Text, value: Text)

  function NameLength(t: Text): (n: nat)
    ensures n <= |t|
    ensures forall i :: 0 <= i < n ==> NameChar(t[i])
    ensures n < |t| ==> !NameChar(t[n])
  {
    if t == [] || !NameChar(t[0]) then 0 else 1 + NameLength(t[1..])
  }

  /** /^([a-z][a-z0-9-]*)="([^"]*)"$/ */
  function ParseAttr(t: Text): Option<Attr> {
    var n := NameLength(t);
    if n == 0 || !IsLower(t[0]) || |t| < n + 3 || t[n] != 61 || t[n + 1] != 34 || t[|t| - 1] != 34 then None
    else if exists i :: n + 2 <= i < |t| - 1 && t[i] == 34 then None
    else Some(Attr(t[..n], t[n + 2..|t| - 1]))
  }

  /** The token loop: every token an attribute, known, and not repeated. */
  function Collect(tokens: seq<Text>, found: map<Text, Text>): Option<map<Text, Text>> {
    if tokens == [] then Some(found)
    else
      match ParseAttr(tokens[0])
      case None => None
      case Some(a) =>
        if !IsAttrName(a.name) || a.name in found then None
        else Collect(tokens[1..], found[a.name := a.value])
  }

  /** Number(raw) for at most 16 digits: above 2^53 a double keeps even integers, ties to even. */
  function ToDouble(n: nat): nat {
    if n <= 0x20_0000_0000_0000 || n % 2 == 0 then n
    else if n % 4 == 1 then n - 1
    else n + 1
  }

  predicate Complete(found: map<Text, Text>) {
    && V in found && PROCESSOR in found && ISSUED_AT in found && REQUEST_ID in found && DIGEST in found
    && ValidVersion(found[V])
    && ValidProcessor(found[PROCESSOR])
    && ValidTime(found[ISSUED_AT])
    && ValidRequestId(found[REQUEST_ID])
    && ValidDigest(found[DIGEST])
  }

  /** The attribute list between the tag's delimiters. */
  function ParseInner(inner: Text): Option<ChainCheckpoint> {
    match Collect(Split(inner), map[])
    case None => None
    case Some(found) =>
      if !Complete(found) then None
      else Some(ChainCheckpoint(FromDecimal(found[V]), found[PROCESSOR], ToDouble(FromDecimal(found[ISSUED_AT])),
                                found[REQUEST_ID], found[DIGEST]))
  }

  /** parseChainCheckpoint on a string. */
  function Parse(text: Text): Option<ChainCheckpoint> {
    if |text| == 0 || |text| > MAX_CHECKPOINT_CHARS || !StartsWith(text, TAG_OPEN) || !EndsWith(text, TAG_CLOSE)
    then None
    else if |text| < |TAG_OPEN| + |TAG_CLOSE| then None
    else ParseInner(text[|TAG_OPEN|..|text| - |TAG_CLOSE|])
  }

  // ---- rendering ----

  function RenderAttr(name: Text, value: Text): Text {
    name + [61, 34] + value + [34]
  }

  function RenderTokens(cp: ChainCheckpoint): seq<Text> {
    [RenderAttr(V, Decimal(cp.v)), RenderAttr(PROCESSOR, cp.processor), RenderAttr(ISSUED_AT, Decimal(cp.issuedAt)),
     RenderAttr(REQUEST_ID, cp.requestId), RenderAttr(DIGEST, cp.digest)]
  }

  function JoinWords(ws: seq<Text>): Text {
    if ws == [] then [] else if |ws| == 1 then ws[0] else ws[0] + [32] + JoinWords(ws[1..])
  }

  /** renderChainCheckpoint. */
  function Render(cp: ChainCheckpoint): Text {
    TAG_OPEN + JoinWords(RenderTokens(cp)) + TAG_CLOSE
  }

  // ---- parse undoes render ----

  /** The checkpoints the tag grammar can carry: what a stamp of this version may write. */
  predicate Renderable(cp: ChainCheckpoint) {
    && 1 <= cp.v < 0x20_0000_0000_0000
    && cp.issuedAt < Pow10(16)
    && ToDouble(cp.issuedAt) == cp.issuedAt
    && ValidProcessor(cp.processor) && ValidRequestId(cp.requestId) && ValidDigest(cp.digest)
  }

  predicate Spaceless(t: Text) {
    forall i :: 0 <= i < |t| ==> !IsSpace(t[i])
  }

  lemma WordLengthIs(w: Text, rest: Text)
    requires Spaceless(w) && (rest == [] || IsSpace(rest[0]))
    ensures WordLength(w + rest) == |w|
  {
    var t := w + rest;
    assert forall i :: 0 <= i < |w| ==> t[i] == w[i];
    assert |rest| > 0 ==> t[|w|] == rest[0];
  }

  lemma SplitWord(w: Text, rest: Text)
    requires Spaceless(w) && rest != [] && !IsSpace(rest[0])
    ensures Split(w + [32] + rest) == [w] + Split(rest)
  {
    var t := w + [32] + rest;
    assert t == w + ([32] + rest);
    WordLengthIs(w, [32] + rest);
    var tail := t[|w|..];
    assert tail == [32] + rest;
    assert GapLength(tail) == 1 by {
      assert tail[1] == rest[0];
    }
    assert tail[1..] == rest && t[..|w|] == w;
  }

  lemma JoinedStarts(ws: seq<Text>)
    requires ws != [] && ws[0] != [] && Spaceless(ws[0])
    ensures JoinWords(ws) != [] && !IsSpace(JoinWords(ws)[0])
  {
    assert JoinWords(ws)[0] == ws[0][0];
  }

  lemma JoinedFirst(ws: seq<Text>)
    requires |ws| > 1
    ensures JoinWords(ws) == ws[0] + [32] + JoinWords(ws[1..])
  {
  }

  predicate Words(ws: seq<Text>) {
    forall i :: 0 <= i < |ws| ==> Spaceless(ws[i]) && ws[i] != []
  }

  lemma WordsFollow(ws: seq<Text>)
    requires Words(ws) && |ws| > 1
    ensures Words(ws[1..]) && Spaceless(ws[0])
    ensures JoinWords(ws[1..]) != [] && !IsSpace(JoinWords(ws[1..])[0])
  {
    hide IsSpace;
    assert Spaceless(ws[1]);
    JoinedStarts(ws[1..]);
  }

  lemma SplitOneWord(w: Text)
    requires Spaceless(w) && w != []
    ensures Split(w) == [w]
  {
    WordLengthIs(w, []);
    assert w + [] == w;
  }

  lemma {:induction false} SplitJoin(ws: seq<Text>)
    requires ws != [] && Words(ws)
    ensures Split(JoinWords(ws)) == ws
  {
    if |ws| == 1 {
      SplitOneWord(ws[0]);
    } else {
      hide Split, JoinWords, IsSpace, Words, Spaceless;
      WordsFollow(ws);
      SplitJoin(ws[1..]);
      JoinedFirst(ws);
      SplitWord(ws[0], JoinWords(ws[1..]));
      assert [ws[0]] + ws[1..] == ws;
    }
  }

  predicate GoodName(n: Text) {
    |n| > 0 && IsLower(n[0]) && forall i :: 0 <= i < |n| ==> NameChar(n[i])
  }

  lemma NameLengthIs(n: Text, rest: Text)
    requires GoodName(n) && rest != [] && !NameChar(rest[0])
    ensures NameLength(n + rest) == |n|
  {
    var t := n + rest;
    assert forall i :: 0 <= i < |n| ==> t[i] == n[i];
    assert t[|n|] == rest[0];
  }

  lemma ParseRenderAttr(name: Text, value: Text)
    requires GoodName(name) && 34 !in value
    ensures ParseAttr(RenderAttr(name, value)) == Some(Attr(name, value))
  {
    var t := RenderAttr(name, value);
    assert t == name + ([61, 34] + value + [34]);
    NameLengthIs(name, [61, 34] + value + [34]);
    assert forall i :: |name| + 2 <= i < |t| - 1 ==> t[i] == value[i - |name| - 2];
    assert t[..|name|] == name && t[|name| + 2..|t| - 1] == value;
  }

  lemma NamesAreGood()
    ensures GoodName(V) && GoodName(PROCESSOR) && GoodName(ISSUED_AT) && GoodName(REQUEST_ID) && GoodName(DIGEST)
    ensures V != PROCESSOR && V != ISSUED_AT && V != REQUEST_ID && V != DIGEST
    ensures PROCESSOR != ISSUED_AT && PROCESSOR != REQUEST_ID && PROCESSOR != DIGEST
    ensures ISSUED_AT != REQUEST_ID && ISSUED_AT != DIGEST && REQUEST_ID != DIGEST
  {
    assert PROCESSOR[0] == 112 && ISSUED_AT[0] == 105;
  }

  /** A value that survives inside a quoted attribute. */
  predicate Quotable(t: Text) {
    Spaceless(t) && 34 !in t
  }

  lemma AttrTokens(name: Text, value: Text)
    requires GoodName(name) && Quotable(value)
    ensures Spaceless(RenderAttr(name, value)) && RenderAttr(name, value) != []
  {
    assert forall i :: 0 <= i < |name| ==> !IsSpace(name[i]) by {
      assert forall i :: 0 <= i < |name| ==> NameChar(name[i]);
    }
  }

  function FoundOf(cp: ChainCheckpoint): map<Text, Text> {
    map[V := Decimal(cp.v), PROCESSOR := cp.processor, ISSUED_AT := Decimal(cp.issuedAt),
        REQUEST_ID := cp.requestId, DIGEST := cp.digest]
  }

  lemma CollectStep(name: Text, value: Text, rest: seq<Text>, found: map<Text, Text>)
    requires GoodName(name) && IsAttrName(name) && Quotable(value) && name !in found
    ensures Collect([RenderAttr(name, value)] + rest, found) == Collect(rest, found[name := value])
  {
    ParseRenderAttr(name, value);
    assert ([RenderAttr(name, value)] + rest)[1..] == rest;
  }

  lemma CollectTwo(n1: Text, v1: Text, n2: Text, v2: Text, rest: seq<Text>, found: map<Text, Text>)
    requires GoodName(n1) && IsAttrName(n1) && Quotable(v1) && n1 !in found
    requires GoodName(n2) && IsAttrName(n2) && Quotable(v2) && n2 !in found && n1 != n2
    ensures Collect([RenderAttr(n1, v1), RenderAttr(n2, v2)] + rest, found) == Collect(rest, found[n1 := v1][n2 := v2])
  {
    var tail := [RenderAttr(n2, v2)] + rest;
    assert [RenderAttr(n1, v1), RenderAttr(n2, v2)] + rest == [RenderAttr(n1, v1)] + tail;
    CollectStep(n1, v1, tail, found);
    CollectStep(n2, v2, rest, found[n1 := v1]);
  }

  lemma CollectNone(found: map<Text, Text>)
    ensures Collect([], found) == Some(found)
  {
  }

  lemma CollectRendered(cp: ChainCheckpoint)
    requires Quotable(cp.processor) && Quotable(cp.requestId) && Quotable(cp.digest)
    ensures Collect(RenderTokens(cp), map[]) == Some(FoundOf(cp))
  {
    hide Collect, RenderAttr, Quotable, GoodName, Decimal;
    NamesAreGood();
    var ts := RenderTokens(cp);
    var m2 := map[V := Decimal(cp.v), PROCESSOR := cp.processor];
    var m4 := m2[ISSUED_AT := Decimal(cp.issuedAt)][REQUEST_ID := cp.requestId];
    CollectTwo(V, Decimal(cp.v), PROCESSOR, cp.processor, ts[2..], map[]);
    assert ts == [ts[0], ts[1]] + ts[2..];
    assert Collect(ts, map[]) == Collect(ts[2..], m2);
    CollectTwo(ISSUED_AT, Decimal(cp.issuedAt), REQUEST_ID, cp.requestId, ts[4..], m2);
    assert ts[2..] == [ts[2], ts[3]] + ts[4..];
    CollectStep(DIGEST, cp.digest, [], m4);
    assert ts[4..] == [ts[4]] + [];
    CollectNone(m4[DIGEST := cp.digest]);
  }

  lemma SplitRendered(cp: ChainCheckpoint)
    requires Quotable(cp.processor) && Quotable(cp.requestId) && Quotable(cp.digest)
    ensures Split(JoinWords(RenderTokens(cp))) == RenderTokens(cp)
  {
    NamesAreGood();
    AttrTokens(V, Decimal(cp.v));
    AttrTokens(PROCESSOR, cp.processor);
    AttrTokens(ISSUED_AT, Decimal(cp.issuedAt));
    AttrTokens(REQUEST_ID, cp.requestId);
    AttrTokens(DIGEST, cp.digest);
    SplitJoin(RenderTokens(cp));
  }

  lemma RenderedLength(cp: ChainCheckpoint)
    ensures |Render(cp)| == 68 + |Decimal(cp.v)| + |cp.processor| + |Decimal(cp.issuedAt)| + |cp.requestId| + |cp.digest|
  {
    var ts := RenderTokens(cp);
    assert JoinWords(ts) == ts[0] + [32] + JoinWords(ts[1..]);
    assert JoinWords(ts[1..]) == ts[1] + [32] + JoinWords(ts[2..]) by { assert ts[1..][1..] == ts[2..]; }
    assert JoinWords(ts[2..]) == ts[2] + [32] + JoinWords(ts[3..]) by { assert ts[2..][1..] == ts[3..]; }
    assert JoinWords(ts[3..]) == ts[3] + [32] + JoinWords(ts[4..]) by { assert ts[3..][1..] == ts[4..]; }
    assert JoinWords(ts[4..]) == ts[4];
  }

  lemma ParseFramed(inner: Text)
    ensures Parse(TAG_OPEN + inner + TAG_CLOSE) ==
      if |inner| + 14 > MAX_CHECKPOINT_CHARS then None else ParseInner(inner)
  {
    var t := TAG_OPEN + inner + TAG_CLOSE;
    assert t[|TAG_OPEN|..|t| - |TAG_CLOSE|] == inner;
    assert t[..|TAG_OPEN|] == TAG_OPEN && t[|t| - |TAG_CLOSE|..] == TAG_CLOSE;
  }

  lemma ParseRenderedTokens(cp: ChainCheckpoint)
    requires Quotable(cp.processor) && Quotable(cp.requestId) && Quotable(cp.digest)
    requires Complete(FoundOf(cp))
    ensures ParseInner(JoinWords(RenderTokens(cp))) == Some(cp.(issuedAt := ToDouble(cp.issuedAt)))
  {
    hide Split, Collect, JoinWords, RenderTokens, Decimal, FromDecimal, Quotable, GoodName, ToDouble;
    SplitRendered(cp);
    CollectRendered(cp);
    NamesAreGood();
    DecimalRoundTrip(cp.v);
    DecimalRoundTrip(cp.issuedAt);
  }

  lemma FieldsAreQuotable(cp: ChainCheckpoint)
    requires ValidProcessor(cp.processor) && ValidRequestId(cp.requestId) && ValidDigest(cp.digest)
    ensures Quotable(cp.processor) && Quotable(cp.requestId) && Quotable(cp.digest)
  {
    var p := Lit("sha256:");
    assert forall i :: 0 <= i < 7 ==> cp.digest[i] == p[i];
  }

  lemma SixteenDigits()
    ensures Pow10(16) == 10_000_000_000_000_000
  {
    assert Pow10(8) == 100_000_000;
    assert Pow10(16) == 100_000_000 * Pow10(8);
  }

  lemma CompleteFields(cp: ChainCheckpoint)
    ensures Complete(FoundOf(cp)) <==>
      && ValidVersion(Decimal(cp.v)) && ValidTime(Decimal(cp.issuedAt))
      && ValidProcessor(cp.processor) && ValidRequestId(cp.requestId) && ValidDigest(cp.digest)
  {
    NamesAreGood();
  }

  lemma ValidNumbers(cp: ChainCheckpoint)
    ensures ValidVersion(Decimal(cp.v)) <==> cp.v >= 1
    ensures ValidTime(Decimal(cp.issuedAt)) <==> cp.issuedAt < Pow10(16)
  {
    DecimalRoundTrip(cp.v);
    DecimalLength(cp.issuedAt, 16);
  }

  lemma RenderedFits(cp: ChainCheckpoint)
    requires cp.v < Pow10(16) && cp.issuedAt < Pow10(16)
    requires |cp.processor| <= 64 && |cp.requestId| <= 64 && |cp.digest| == 71
    ensures |Render(cp)| <= MAX_CHECKPOINT_CHARS
  {
    DecimalLength(cp.v, 16);
    DecimalLength(cp.issuedAt, 16);
    RenderedLength(cp);
  }

  /** What a render comes to when the strings fit: only the time can spoil it. */
  lemma RenderedReads(cp: ChainCheckpoint)
    requires 1 <= cp.v < 0x20_0000_0000_0000
    requires ValidProcessor(cp.processor) && ValidRequestId(cp.requestId) && ValidDigest(cp.digest)
    ensures Parse(Render(cp)) ==
      if cp.issuedAt < Pow10(16) then Some(cp.(issuedAt := ToDouble(cp.issuedAt))) else None
  {
    FieldsAreQuotable(cp);
    CompleteFields(cp);
    ValidNumbers(cp);
    ParseFramed(JoinWords(RenderTokens(cp)));
    if cp.issuedAt < Pow10(16) {
      SixteenDigits();
      RenderedFits(cp);
      ParseRenderedTokens(cp);
    } else {
      SplitRendered(cp);
      CollectRendered(cp);
    }
  }

  /** Every checkpoint a stamp can write reads back as itself. */
  lemma RenderParseRoundTrip(cp: ChainCheckpoint)
    requires Renderable(cp)
    ensures Parse(Render(cp)) == Some(cp)
  {
    RenderedReads(cp);
  }

  lemma {:induction false} FromDecimalBound(t: Text)
    requires AllDigits(t)
    ensures FromDecimal(t) < Pow10(|t|)
  {
    if t != [] {
      FromDecimalBound(t[..|t| - 1]);
    }
  }

  lemma {:induction false} Pow10Grows(j: nat, k: nat)
    requires j <= k
    ensures Pow10(j) <= Pow10(k)
  {
    if j < k {
      Pow10Grows(j, k - 1);
    }
  }

  /** Whatever parses has strings that fit the grammar and a time that is a double. */
  lemma ParsedFits(t: Text)
    requires Parse(t).Some?
    ensures var cp := Parse(t).value;
      && cp.v >= 1 && cp.issuedAt <= Pow10(16) && ToDouble(cp.issuedAt) == cp.issuedAt
      && ValidProcessor(cp.processor) && ValidRequestId(cp.requestId) && ValidDigest(cp.digest)
  {
    var found := Collect(Split(t[|TAG_OPEN|..|t| - |TAG_CLOSE|]), map[]).value;
    assert Complete(found);
    TimeBound(found[ISSUED_AT]);
  }

  lemma RoundingBound(n: nat)
    requires n < 10_000_000_000_000_000
    ensures ToDouble(n) <= 10_000_000_000_000_000 && ToDouble(ToDouble(n)) == ToDouble(n)
  {
    RoundedIsEven(n);
  }

  lemma RoundedIsEven(n: nat)
    ensures ToDouble(n) == n || ToDouble(n) % 2 == 0
    ensures n <= ToDouble(n) + 1 && ToDouble(n) <= n + 1
  {
  }

  lemma TimeBound(t: Text)
    requires ValidTime(t)
    ensures ToDouble(FromDecimal(t)) <= Pow10(16)
    ensures ToDouble(ToDouble(FromDecimal(t))) == ToDouble(FromDecimal(t))
  {
    hide FromDecimal, Pow10, ToDouble;
    FromDecimalBound(t);
    Pow10Grows(|t|, 16);
    SixteenDigits();
    RoundingBound(FromDecimal(t));
  }

  /**
   * An accepted tag, rendered afresh, is accepted as the same checkpoint exactly when its time prints in
   * sixteen digits. Doubles round 9999999999999999 up to 10^16, which does not.
   */
  lemma ReparseParsed(t: Text)
    requires Parse(t).Some? && Parse(t).value.v < 0x20_0000_0000_0000
    ensures Parse(Render(Parse(t).value)) == Parse(t) <==> Parse(t).value.issuedAt < Pow10(16)
  {
    ParsedFits(t);
    RenderedReads(Parse(t).value);
  }

  lemma LastTimeRounds()
    ensures ToDouble(9_999_999_999_999_999) == 10_000_000_000_000_000
  {
  }

  /** The excluded case is reachable: this accepted tag reads as a checkpoint whose own rendering is refused. */
  lemma LastTimeDoesNotReparse(cp: ChainCheckpoint)
    requires cp.v == 1 && cp.issuedAt == 9_999_999_999_999_999
    requires ValidProcessor(cp.processor) && ValidRequestId(cp.requestId) && ValidDigest(cp.digest)
    ensures Parse(Render(cp)).Some?
    ensures Parse(Render(Parse(Render(cp)).value)) == None
  {
    hide Parse, Render, ToDouble, Pow10, ValidProcessor, ValidRequestId, ValidDigest;
    SixteenDigits();
    LastTimeRounds();
    RenderedReads(cp);
    RenderedReads(cp.(issuedAt := Pow10(16)));
  }
}
