/** The grammar of a checkpoint tag, and that parsing accepts exactly that. */
module TagGrammar {
  import opened Texts
  import opened Seqs
  import opened Checkpoint

  // ---- the grammar ----

  /** name="value" */
  function Quoted(name: Text, value: Text): Text {
    name + Lit("=\"") + value + Lit("\"")
  }

  predicate Blank(c: CodeUnit) {
    9 <= c <= 13 || c in [0x20, 0xA0, 0x1680, 0x2028, 0x2029, 0x202F, 0x205F, 0x3000, 0xFEFF] || 0x2000 <= c <= 0x200A
  }

  predicate Among(c: CodeUnit, low: char, high: char)
    requires low < 127 as char && high < 127 as char
  {
    low as int <= c <= high as int
  }

  predicate Numeral(t: Text) {
    |t| > 0 && forall i :: 0 <= i < |t| ==> Among(t[i], '0', '9')
  }

  predicate HostChar(c: CodeUnit) {
    Among(c, 'A', 'Z') || Among(c, 'a', 'z') || Among(c, '0', '9') || c in Lit("._-")
  }

  predicate HostName(t: Text) {
    1 <= |t| <= 64 && forall i :: 0 <= i < |t| ==> HostChar(t[i])
  }

  predicate RequestName(t: Text) {
    1 <= |t| <= 64 && forall i :: 0 <= i < |t| ==> HostChar(t[i]) || t[i] == ':' as int
  }

  predicate HexDigest(t: Text) {
    |t| == 71 && Lit("sha256:") <= t && forall i :: 7 <= i < 71 ==> Among(t[i], '0', '9') || Among(t[i], 'a', 'f')
  }

  /** The double nearest to n, below 2^54: the even one of two neighbours on a tie. */
  predicate NearestDouble(n: nat, r: nat) {
    if n <= 0x20_0000_0000_0000 || n % 2 == 0 then r == n else r % 4 == 0 && n - 1 <= r <= n + 1
  }

  /** The words one after the other, with white space between any two and nothing around them. */
  ghost predicate Spaced(t: Text, ws: seq<Text>) {
    && ws != [] && (forall c :: c in ws[0] ==> !Blank(c))
    && if |ws| == 1 then t == ws[0]
       else exists gap: Text :: gap != [] && (forall c :: c in gap ==> Blank(c)) && ws[1] != []
              && ws[0] + gap <= t && Spaced(t[|ws[0] + gap|..], ws[1..])
  }

  /** The five values of a tag, and the checkpoint they say. */
  predicate Values(cp: ChainCheckpoint, version: Text, time: Text) {
    && Numeral(version) && FromDecimal(version) == cp.v && cp.v >= 1
    && Numeral(time) && |time| <= 16 && NearestDouble(FromDecimal(time), cp.issuedAt)
    && HostName(cp.processor) && RequestName(cp.requestId) && HexDigest(cp.digest)
  }

  /** A tag that says the checkpoint: its five attributes, each once, in any order. */
  ghost predicate Says(t: Text, cp: ChainCheckpoint, inner: Text, ws: seq<Text>, version: Text, time: Text) {
    && |t| <= 512 && t == Lit("<bili-chain ") + inner + Lit("/>") && Spaced(inner, ws) && |ws| == 5
    && Quoted(Lit("v"), version) in ws && Quoted(Lit("processor"), cp.processor) in ws
    && Quoted(Lit("issued-at"), time) in ws && Quoted(Lit("request-id"), cp.requestId) in ws
    && Quoted(Lit("digest"), cp.digest) in ws
    && Values(cp, version, time)
  }

  ghost predicate IsTagOf(t: Text, cp: ChainCheckpoint) {
    exists inner, ws, version, time :: Says(t, cp, inner, ws, version, time)
  }

  // ---- the words ----

  lemma BlankIsSpace(c: CodeUnit)
    ensures Blank(c) <==> IsSpace(c)
  {
  }

  lemma AttributeIsQuoted(w: Text)
    requires ParseAttr(w).Some?
    ensures w != [] && w == Quoted(ParseAttr(w).value.name, ParseAttr(w).value.value)
  {
    var n := NameLength(w);
    assert w == w[..n] + [61, 34] + w[n + 2..|w| - 1] + [34];
  }

  lemma SplitAll(t: Text)
    requires WordLength(t) == |t|
    ensures Split(t) == [t]
  {
    hide WordLength, GapLength;
  }

  lemma GapIsThere(t: Text)
    requires WordLength(t) < |t|
    ensures 0 < GapLength(t[WordLength(t)..])
  {
    hide WordLength, IsSpace;
    assert IsSpace(t[WordLength(t)..][0]);
  }

  lemma SplitStep(t: Text, w: nat, g: nat)
    requires w == WordLength(t) < |t| && g == GapLength(t[w..])
    ensures g > 0 && w + g <= |t| && Split(t) == [t[..w]] + Split(t[w + g..])
  {
    hide WordLength, GapLength, IsSpace;
    GapIsThere(t);
    assert t[w..][g..] == t[w + g..];
  }

  lemma SpacedStep(t: Text, w: Text, gap: Text, rest: Text, ws: seq<Text>)
    requires t == w + gap + rest && (forall c :: c in w ==> !Blank(c))
    requires gap != [] && (forall c :: c in gap ==> Blank(c))
    requires ws != [] && Spaced(rest, ws) && ws[0] != []
    ensures Spaced(t, [w] + ws)
  {
    hide Blank;
    var all := [w] + ws;
    assert all[1..] == ws && all[0] == w;
    assert all[0] + gap <= t && t[|all[0] + gap|..] == rest;
  }

  lemma AllBlank(t: Text, w: nat, g: nat)
    requires w == WordLength(t) < |t| && g == GapLength(t[w..])
    ensures w + g <= |t|
    ensures forall c :: c in t[..w] ==> !Blank(c)
    ensures forall c :: c in t[w..w + g] ==> Blank(c)
  {
    hide WordLength, GapLength, IsSpace, Blank;
    forall c: CodeUnit ensures Blank(c) <==> IsSpace(c) { BlankIsSpace(c); }
    var word, gap := t[..w], t[w..w + g];
    assert forall i :: 0 <= i < w ==> word[i] == t[i] && !IsSpace(t[i]);
    assert forall i :: 0 <= i < g ==> gap[i] == t[w..][i] && IsSpace(t[w..][i]);
  }

  lemma SplitHasWord(t: Text)
    ensures Split(t) != []
  {
  }

  lemma {:induction false} SplitIsSpaced(t: Text)
    requires forall i :: 1 <= i < |Split(t)| ==> Split(t)[i] != []
    ensures Spaced(t, Split(t))
    decreases |t|
  {
    hide IsSpace, Blank, WordLength, GapLength, Split, Spaced;
    var w := WordLength(t);
    if w < |t| {
      var g := GapLength(t[w..]);
      SplitStep(t, w, g);
      AllBlank(t, w, g);
      var rest := t[w + g..];
      SplitHasWord(rest);
      assert forall i :: 0 <= i < |Split(rest)| ==> Split(rest)[i] == Split(t)[i + 1];
      SplitIsSpaced(rest);
      SpacedStep(t, t[..w], t[w..w + g], rest, Split(rest));
    } else {
      SplitAll(t);
      OneWord(t);
    }
  }

  lemma OneWord(t: Text)
    requires WordLength(t) == |t|
    ensures Spaced(t, [t])
  {
    hide IsSpace, Blank, WordLength;
    forall c: CodeUnit ensures Blank(c) <==> IsSpace(c) { BlankIsSpace(c); }
  }

  /** How a spaced text goes on behind its first word. */
  lemma SpacedSplits(t: Text, ws: seq<Text>) returns (gap: Text, rest: Text)
    requires Spaced(t, ws) && |ws| > 1
    ensures t == ws[0] + gap + rest && gap != [] && (forall c :: c in gap ==> Blank(c))
    ensures (forall c :: c in ws[0] ==> !Blank(c)) && ws[1] != [] && Spaced(rest, ws[1..])
  {
    hide Blank;
    gap :| gap != [] && (forall c :: c in gap ==> Blank(c)) && ws[1] != []
           && ws[0] + gap <= t && Spaced(t[|ws[0] + gap|..], ws[1..]);
    rest := t[|ws[0] + gap|..];
  }

  lemma SplitFirst(w: Text, gap: Text, rest: Text)
    requires (forall c :: c in w ==> !Blank(c)) && gap != [] && (forall c :: c in gap ==> Blank(c))
    requires rest != [] && !Blank(rest[0])
    ensures Split(w + gap + rest) == [w] + Split(rest)
  {
    hide IsSpace, Blank, WordLength, GapLength, Split;
    forall c: CodeUnit ensures Blank(c) <==> IsSpace(c) { BlankIsSpace(c); }
    var t := w + gap + rest;
    assert t == w + (gap + rest);
    WordLengthIs(w, gap + rest);
    assert t[|w|..] == gap + rest;
    GapLengthIs(gap, rest);
    SplitStep(t, |w|, |gap|);
    assert t[|w| + |gap|..] == rest && t[..|w|] == w;
  }

  lemma {:induction false} SpacedIsSplit(t: Text, ws: seq<Text>)
    requires ws != [] && Spaced(t, ws) && ws[|ws| - 1] != []
    ensures Split(t) == ws
    decreases |ws|
  {
    hide IsSpace, Blank, Split, Spaced, WordLength, GapLength;
    if |ws| == 1 {
      OneWordSplits(t, ws);
    } else {
      var gap, rest := SpacedSplits(t, ws);
      SpacedIsSplit(rest, ws[1..]);
      FirstWordStarts(rest, ws[1..]);
      SplitFirst(ws[0], gap, rest);
      assert ws == [ws[0]] + ws[1..];
    }
  }

  lemma OneWordSplits(t: Text, ws: seq<Text>)
    requires Spaced(t, ws) && |ws| == 1 && ws[0] != []
    ensures Split(t) == ws
  {
    hide IsSpace, Blank, Split, WordLength;
    forall c: CodeUnit ensures Blank(c) <==> IsSpace(c) { BlankIsSpace(c); }
    SplitOneWord(t);
  }

  lemma FirstWordStarts(t: Text, ws: seq<Text>)
    requires ws != [] && Spaced(t, ws) && ws[0] != []
    ensures t != [] && !Blank(t[0])
  {
    hide Blank;
    if |ws| > 1 {
      var gap, rest := SpacedSplits(t, ws);
    }
    assert t[0] == ws[0][0];
  }

  lemma {:induction false} GapLengthIs(gap: Text, rest: Text)
    requires (forall i :: 0 <= i < |gap| ==> IsSpace(gap[i])) && rest != [] && !IsSpace(rest[0])
    ensures GapLength(gap + rest) == |gap|
  {
    hide IsSpace;
    var t := gap + rest;
    assert forall i :: 0 <= i < |gap| ==> t[i] == gap[i];
    assert t[|gap|] == rest[0];
  }

  // ---- the attributes ----

  const NAMES: seq<Text> := [Lit("v"), Lit("processor"), Lit("issued-at"), Lit("request-id"), Lit("digest")]

  lemma NamesAre()
    ensures V == Lit("v") && PROCESSOR == Lit("processor") && ISSUED_AT == Lit("issued-at")
    ensures REQUEST_ID == Lit("request-id") && DIGEST == Lit("digest")
  {
  }

  lemma QuotedIsRendered(name: Text, value: Text)
    ensures Quoted(name, value) == RenderAttr(name, value) != []
  {
  }

  lemma CollectNext(tokens: seq<Text>, found: map<Text, Text>) returns (a: Attr)
    requires Collect(tokens, found).Some? && tokens != []
    ensures IsAttrName(a.name) && a.name !in found && tokens[0] == Quoted(a.name, a.value) && tokens[0] != []
    ensures Collect(tokens[1..], found[a.name := a.value]) == Collect(tokens, found)
  {
    hide ParseAttr, Quoted, IsAttrName;
    a := ParseAttr(tokens[0]).value;
    AttributeIsQuoted(tokens[0]);
  }

  /** What the loop has collected: every token gave one new key, and every new key came from a token. */
  lemma {:induction false} CollectMeans(tokens: seq<Text>, found: map<Text, Text>)
    requires Collect(tokens, found).Some?
    ensures var all := Collect(tokens, found).value;
      && |all| == |found| + |tokens|
      && (forall n :: n in found ==> n in all && all[n] == found[n])
      && (forall n :: n in all && n !in found ==> Quoted(n, all[n]) in tokens)
      && (forall n :: n in all && n !in found ==> IsAttrName(n))
      && (forall w :: w in tokens ==> w != [])
  {
    if tokens != [] {
      hide Collect, Quoted, IsAttrName;
      var a := CollectNext(tokens, found);
      CollectMeans(tokens[1..], found[a.name := a.value]);
      assert tokens == [tokens[0]] + tokens[1..];
    }
  }

  predicate Fresh(w: Text, found: map<Text, Text>, all: map<Text, Text>) {
    exists n :: n in all && n !in found && w == RenderAttr(n, all[n])
  }

  /** The five attributes as words; a value never holds a quote, so a word names its key. */
  predicate Offered(tokens: seq<Text>, found: map<Text, Text>, all: map<Text, Text>) {
    && (forall n :: n in all ==> IsAttrName(n) && Quotable(all[n]))
    && (forall n :: n in found ==> n in all && found[n] == all[n])
    && (forall i, j :: 0 <= i < j < |tokens| ==> tokens[i] != tokens[j])
    && (forall i :: 0 <= i < |tokens| ==> Fresh(tokens[i], found, all))
    && (forall n :: n in all && n !in found ==> RenderAttr(n, all[n]) in tokens)
  }

  lemma AttrNameIsGood(n: Text)
    requires IsAttrName(n)
    ensures GoodName(n)
  {
    NamesAreGood();
  }

  lemma NamesApart(n: Text, m: Text, all: map<Text, Text>)
    requires n in all && m in all && n != m
    requires forall k :: k in all ==> IsAttrName(k) && Quotable(all[k])
    ensures RenderAttr(n, all[n]) != RenderAttr(m, all[m])
  {
    hide ParseAttr, RenderAttr, IsAttrName, GoodName;
    AttrNameIsGood(n);
    AttrNameIsGood(m);
    ParseRenderAttr(n, all[n]);
    ParseRenderAttr(m, all[m]);
  }

  lemma OfferedNext(tokens: seq<Text>, found: map<Text, Text>, all: map<Text, Text>) returns (n: Text)
    requires Offered(tokens, found, all) && tokens != []
    ensures n in all && n !in found && tokens[0] == RenderAttr(n, all[n])
    ensures IsAttrName(n) && Quotable(all[n])
  {
    hide RenderAttr, Quotable, IsAttrName;
    assert Fresh(tokens[0], found, all);
    n :| n in all && n !in found && tokens[0] == RenderAttr(n, all[n]);
  }

  lemma OfferedStep(tokens: seq<Text>, found: map<Text, Text>, all: map<Text, Text>, n: Text)
    requires Offered(tokens, found, all) && tokens != []
    requires n in all && n !in found && tokens[0] == RenderAttr(n, all[n])
    ensures Offered(tokens[1..], found[n := all[n]], all)
  {
    hide RenderAttr, Quotable, IsAttrName;
    assert forall k :: k in all ==> IsAttrName(k) && Quotable(all[k]);
    var next := found[n := all[n]];
    forall i | 0 <= i < |tokens| - 1
      ensures Fresh(tokens[1..][i], next, all)
    {
      assert Fresh(tokens[i + 1], found, all);
      var m :| m in all && m !in found && tokens[i + 1] == RenderAttr(m, all[m]);
      assert m != n;
    }
    forall m | m in all && m !in next ensures RenderAttr(m, all[m]) in tokens[1..] {
      NamesApart(n, m, all);
    }
  }

  lemma {:induction false} CollectOffered(tokens: seq<Text>, found: map<Text, Text>, all: map<Text, Text>)
    requires Offered(tokens, found, all)
    ensures Collect(tokens, found) == Some(all)
  {
    if tokens == [] {
      assert found == all;
    } else {
      hide RenderAttr, Quotable, IsAttrName;
      var n := OfferedNext(tokens, found, all);
      OfferedStep(tokens, found, all, n);
      CollectOffered(tokens[1..], found[n := all[n]], all);
      hide Offered, Collect;
      AttrNameIsGood(n);
      CollectStep(n, all[n], tokens[1..], found);
      assert tokens == [tokens[0]] + tokens[1..];
    }
  }

  // ---- the values ----

  lemma HostIsValid(t: Text)
    ensures HostName(t) <==> ValidProcessor(t)
  {
    forall c: CodeUnit ensures HostChar(c) <==> ProcessorChar(c) { HostCharIs(c); }
  }

  lemma HostCharIs(c: CodeUnit)
    ensures HostChar(c) <==> ProcessorChar(c)
  {
    var marks := Lit("._-");
    assert marks == [46, 95, 45];
  }

  lemma RequestIsValid(t: Text)
    ensures RequestName(t) <==> ValidRequestId(t)
  {
    forall c: CodeUnit ensures HostChar(c) <==> ProcessorChar(c) { HostCharIs(c); }
  }

  lemma DigestIsHex(t: Text)
    ensures HexDigest(t) <==> ValidDigest(t)
  {
  }

  lemma NumeralIsDigits(t: Text)
    ensures Numeral(t) <==> t != [] && AllDigits(t)
  {
  }

  lemma RoundsToNearest(n: nat, r: nat)
    ensures NearestDouble(n, r) <==> r == ToDouble(n)
  {
  }

  function AllOf(cp: ChainCheckpoint, version: Text, time: Text): map<Text, Text> {
    map[V := version, PROCESSOR := cp.processor, ISSUED_AT := time, REQUEST_ID := cp.requestId, DIGEST := cp.digest]
  }

  function Reading(found: map<Text, Text>): ChainCheckpoint
    requires Complete(found)
  {
    ChainCheckpoint(FromDecimal(found[V]), found[PROCESSOR], ToDouble(FromDecimal(found[ISSUED_AT])),
                    found[REQUEST_ID], found[DIGEST])
  }

  lemma CompleteMeans(found: map<Text, Text>, cp: ChainCheckpoint)
    requires V in found && PROCESSOR in found && ISSUED_AT in found && REQUEST_ID in found && DIGEST in found
    requires cp.processor == found[PROCESSOR] && cp.requestId == found[REQUEST_ID] && cp.digest == found[DIGEST]
    ensures Complete(found) && Reading(found) == cp <==> Values(cp, found[V], found[ISSUED_AT])
  {
    hide Numeral, HostName, RequestName, HexDigest, NearestDouble, ToDouble, FromDecimal;
    NumeralIsDigits(found[V]);
    NumeralIsDigits(found[ISSUED_AT]);
    HostIsValid(cp.processor);
    RequestIsValid(cp.requestId);
    DigestIsHex(cp.digest);
    if AllDigits(found[ISSUED_AT]) {
      RoundsToNearest(FromDecimal(found[ISSUED_AT]), cp.issuedAt);
    }
  }

  // ---- parsing accepts exactly the grammar ----

  lemma FrameOf(t: Text) returns (inner: Text)
    requires Parse(t).Some?
    ensures |t| <= 512 && t == Lit("<bili-chain ") + inner + Lit("/>") && ParseInner(inner) == Parse(t)
  {
    hide ParseInner;
    inner := t[|TAG_OPEN|..|t| - |TAG_CLOSE|];
    assert t[..|TAG_OPEN|] == TAG_OPEN;
    assert t == TAG_OPEN + inner + TAG_CLOSE;
  }

  lemma FiveKeys(found: map<Text, Text>)
    requires V in found && PROCESSOR in found && ISSUED_AT in found && REQUEST_ID in found && DIGEST in found
    requires forall n :: n in found ==> IsAttrName(n)
    ensures |found| == 5
  {
    NamesAreGood();
    assert found.Keys == {V, PROCESSOR, ISSUED_AT, REQUEST_ID, DIGEST};
    assert |found.Keys| == |found|;
  }

  lemma TokensAreFive(tokens: seq<Text>, found: map<Text, Text>)
    requires Collect(tokens, map[]) == Some(found) && Complete(found)
    ensures |tokens| == 5 && (forall w :: w in tokens ==> w != [])
    ensures Quoted(V, found[V]) in tokens && Quoted(PROCESSOR, found[PROCESSOR]) in tokens
    ensures Quoted(ISSUED_AT, found[ISSUED_AT]) in tokens && Quoted(REQUEST_ID, found[REQUEST_ID]) in tokens
    ensures Quoted(DIGEST, found[DIGEST]) in tokens
  {
    hide Collect, Quoted, IsAttrName, ValidVersion, ValidTime, ValidProcessor, ValidRequestId, ValidDigest;
    CollectMeans(tokens, map[]);
    FiveKeys(found);
  }

  lemma ParsedIsTag(t: Text, cp: ChainCheckpoint)
    requires Parse(t) == Some(cp)
    ensures IsTagOf(t, cp)
  {
    hide Parse, Split, Collect, Spaced, Quoted, Complete, ToDouble, FromDecimal, Values;
    var inner := FrameOf(t);
    var ws := Split(inner);
    var found := Collect(ws, map[]).value;
    SplitHasWord(inner);
    TokensAreFive(ws, found);
    assert forall i :: 0 <= i < |ws| ==> ws[i] in ws;
    SplitIsSpaced(inner);
    CompleteIsReading(found, cp);
    NamesAre();
    assert Says(t, cp, inner, ws, found[V], found[ISSUED_AT]);
  }

  lemma CompleteIsReading(found: map<Text, Text>, cp: ChainCheckpoint)
    requires Complete(found) && Reading(found) == cp
    ensures V in found && ISSUED_AT in found && Values(cp, found[V], found[ISSUED_AT])
    ensures PROCESSOR in found && REQUEST_ID in found && DIGEST in found
    ensures cp.processor == found[PROCESSOR] && cp.requestId == found[REQUEST_ID] && cp.digest == found[DIGEST]
  {
    hide ValidVersion, ValidTime, ValidProcessor, ValidRequestId, ValidDigest, Values, ToDouble, FromDecimal;
    CompleteMeans(found, cp);
  }

  lemma FivePlaces(i: int, j: int, k: int, l: int, m: int, n: int)
    requires 0 <= i < 5 && 0 <= j < 5 && 0 <= k < 5 && 0 <= l < 5 && 0 <= m < 5 && 0 <= n < 5
    requires i != j && i != k && i != l && i != m && j != k && j != l && j != m && k != l && k != m && l != m
    ensures n == i || n == j || n == k || n == l || n == m
  {
  }

  lemma Place<T>(ws: seq<T>, w: T) returns (i: nat)
    requires w in ws
    ensures i < |ws| && ws[i] == w
  {
    i :| 0 <= i < |ws| && ws[i] == w;
  }

  /** Five places holding five different words hold nothing else, and none twice. */
  lemma FiveInFive<T>(ws: seq<T>, a: T, b: T, c: T, d: T, e: T)
    requires |ws| == 5 && a in ws && b in ws && c in ws && d in ws && e in ws
    requires a != b && a != c && a != d && a != e && b != c && b != d && b != e && c != d && c != e && d != e
    ensures forall n :: 0 <= n < 5 ==> ws[n] == a || ws[n] == b || ws[n] == c || ws[n] == d || ws[n] == e
    ensures forall x, y :: 0 <= x < y < 5 ==> ws[x] != ws[y]
  {
    var i := Place(ws, a);
    var j := Place(ws, b);
    var k := Place(ws, c);
    var l := Place(ws, d);
    var m := Place(ws, e);
    forall n | 0 <= n < 5
      ensures n == i || n == j || n == k || n == l || n == m
      ensures ws[n] == a || ws[n] == b || ws[n] == c || ws[n] == d || ws[n] == e
    {
      FivePlaces(i, j, k, l, m, n);
    }
  }

  lemma ValuesAreQuotable(cp: ChainCheckpoint, version: Text, time: Text)
    requires Values(cp, version, time)
    ensures forall n :: n in AllOf(cp, version, time) ==> IsAttrName(n) && Quotable(AllOf(cp, version, time)[n])
  {
    hide Quotable, NearestDouble, FromDecimal, IsSpace;
    HostIsValid(cp.processor);
    RequestIsValid(cp.requestId);
    DigestIsHex(cp.digest);
    FieldsAreQuotable(cp);
    DigitsAreQuotable(version);
    DigitsAreQuotable(time);
  }

  lemma DigitsAreQuotable(t: Text)
    requires Numeral(t)
    ensures Quotable(t)
  {
  }

  lemma TagParses(t: Text, cp: ChainCheckpoint)
    requires IsTagOf(t, cp)
    ensures Parse(t) == Some(cp)
  {
    hide Parse, Split, Collect, Spaced, Values, Says, Quoted, ParseInner;
    var inner, ws, version, time :| Says(t, cp, inner, ws, version, time);
    SaysFramed(t, cp, inner, ws, version, time);
    WordsAreOffered(t, cp, inner, ws, version, time);
    var all := AllOf(cp, version, time);
    CollectOffered(ws, map[], all);
    SpacedIsSplit(inner, ws);
    WordsRead(inner, cp, version, time);
    ParseFramed(inner);
  }

  lemma SaysFramed(t: Text, cp: ChainCheckpoint, inner: Text, ws: seq<Text>, version: Text, time: Text)
    requires Says(t, cp, inner, ws, version, time)
    ensures |inner| + 14 <= MAX_CHECKPOINT_CHARS && t == TAG_OPEN + inner + TAG_CLOSE
    ensures Values(cp, version, time) && Spaced(inner, ws) && |ws| == 5
  {
    hide Spaced, Values, Quoted;
  }

  lemma WordsRead(inner: Text, cp: ChainCheckpoint, version: Text, time: Text)
    requires Values(cp, version, time) && Collect(Split(inner), map[]) == Some(AllOf(cp, version, time))
    ensures ParseInner(inner) == Some(cp)
  {
    hide Split, Collect, Complete, Values, ToDouble, FromDecimal;
    var all := AllOf(cp, version, time);
    NamesAreGood();
    CompleteMeans(all, cp);
  }

  lemma SaysRendered(t: Text, cp: ChainCheckpoint, inner: Text, ws: seq<Text>, version: Text, time: Text)
    requires Says(t, cp, inner, ws, version, time)
    ensures RenderAttr(V, version) in ws && RenderAttr(PROCESSOR, cp.processor) in ws
    ensures RenderAttr(ISSUED_AT, time) in ws && RenderAttr(REQUEST_ID, cp.requestId) in ws
    ensures RenderAttr(DIGEST, cp.digest) in ws && |ws| == 5
    ensures forall n: Text, v: Text :: RenderAttr(n, v) != []
  {
    hide Spaced, Values, Quoted;
    NamesAre();
    QuotedIsRendered(V, version);
    QuotedIsRendered(PROCESSOR, cp.processor);
    QuotedIsRendered(ISSUED_AT, time);
    QuotedIsRendered(REQUEST_ID, cp.requestId);
    QuotedIsRendered(DIGEST, cp.digest);
  }

  lemma WordsAreOffered(t: Text, cp: ChainCheckpoint, inner: Text, ws: seq<Text>, version: Text, time: Text)
    requires Says(t, cp, inner, ws, version, time)
    ensures Offered(ws, map[], AllOf(cp, version, time)) && |ws| == 5 && ws[4] != []
  {
    hide Spaced, Values, RenderAttr, Quotable, Quoted, IsAttrName;
    var all := AllOf(cp, version, time);
    NamesAre();
    NamesAreGood();
    ValuesAreQuotable(cp, version, time);
    forall n, m | n in all && m in all && n != m ensures RenderAttr(n, all[n]) != RenderAttr(m, all[m]) {
      NamesApart(n, m, all);
    }
    SaysRendered(t, cp, inner, ws, version, time);
    var a, b, c := RenderAttr(V, all[V]), RenderAttr(PROCESSOR, all[PROCESSOR]), RenderAttr(ISSUED_AT, all[ISSUED_AT]);
    var d, e := RenderAttr(REQUEST_ID, all[REQUEST_ID]), RenderAttr(DIGEST, all[DIGEST]);
    assert a in ws && b in ws && c in ws && d in ws && e in ws;
    FiveInFive(ws, a, b, c, d, e);
    forall i | 0 <= i < 5 ensures Fresh(ws[i], map[], all) {
      assert ws[i] == RenderAttr(V, all[V]) || ws[i] == RenderAttr(PROCESSOR, all[PROCESSOR])
        || ws[i] == RenderAttr(ISSUED_AT, all[ISSUED_AT]) || ws[i] == RenderAttr(REQUEST_ID, all[REQUEST_ID])
        || ws[i] == RenderAttr(DIGEST, all[DIGEST]);
    }
  }

  /** Parsing reads exactly the tags of the grammar, and reads in them what they say. */
  lemma ParsesTheGrammar(t: Text, cp: ChainCheckpoint)
    ensures Parse(t) == Some(cp) <==> IsTagOf(t, cp)
  {
    hide Parse, IsTagOf;
    if Parse(t) == Some(cp) {
      ParsedIsTag(t, cp);
    }
    if IsTagOf(t, cp) {
      TagParses(t, cp);
    }
  }

  // ---- what is written ----

  /** One attribute and what follows it. */
  lemma AttrThen(name: Text, value: Text, rest: Text)
    ensures RenderAttr(name, value) + rest == name + [61, 34] + (value + ([34] + rest))
  {
  }

  lemma BlankThen(name: Text, rest: Text)
    ensures [34] + ([32] + (name + [61, 34] + rest)) == ([34, 32] + name + [61, 34]) + rest
  {
  }

  lemma JoinedThen(ws: seq<Text>, rest: Text)
    requires |ws| > 1
    ensures JoinWords(ws) + rest == ws[0] + ([32] + (JoinWords(ws[1..]) + rest))
  {
    JoinedFirst(ws);
  }

  lemma WordSeparators()
    ensures Lit("<bili-chain v=\"") == TAG_OPEN + (V + [61, 34])
    ensures Lit("\" processor=\"") == [34, 32] + PROCESSOR + [61, 34]
    ensures Lit("\" issued-at=\"") == [34, 32] + ISSUED_AT + [61, 34]
    ensures Lit("\" request-id=\"") == [34, 32] + REQUEST_ID + [61, 34]
    ensures Lit("\" digest=\"") == [34, 32] + DIGEST + [61, 34]
    ensures Lit("\"/>") == [34] + TAG_CLOSE
  {
  }

  /** A checkpoint is written in one way: its attributes in a fixed order, with single blanks. */
  lemma RenderWrites(cp: ChainCheckpoint)
    ensures Render(cp) ==
      Lit("<bili-chain v=\"") + (Decimal(cp.v) + (Lit("\" processor=\"") + (cp.processor
      + (Lit("\" issued-at=\"") + (Decimal(cp.issuedAt) + (Lit("\" request-id=\"") + (cp.requestId
      + (Lit("\" digest=\"") + (cp.digest + Lit("\"/>"))))))))))
  {
    hide Decimal, RenderAttr, JoinWords, Lit;
    WordSeparators();
    var ts := RenderTokens(cp);
    var e := TAG_CLOSE;
    assert ts[1..][1..] == ts[2..] && ts[2..][1..] == ts[3..] && ts[3..][1..] == ts[4..];
    JoinedThen(ts, e);
    JoinedThen(ts[1..], e);
    JoinedThen(ts[2..], e);
    JoinedThen(ts[3..], e);
    LastJoined(ts[4..]);
    var digest := cp.digest + ([34] + e);
    var request := cp.requestId + (Lit("\" digest=\"") + digest);
    var time := Decimal(cp.issuedAt) + (Lit("\" request-id=\"") + request);
    var host := cp.processor + (Lit("\" issued-at=\"") + time);
    AttrThen(DIGEST, cp.digest, e);
    BlankThen(DIGEST, digest);
    AttrThen(REQUEST_ID, cp.requestId, [32] + (JoinWords(ts[4..]) + e));
    BlankThen(REQUEST_ID, request);
    AttrThen(ISSUED_AT, Decimal(cp.issuedAt), [32] + (JoinWords(ts[3..]) + e));
    BlankThen(ISSUED_AT, time);
    AttrThen(PROCESSOR, cp.processor, [32] + (JoinWords(ts[2..]) + e));
    BlankThen(PROCESSOR, host);
    AttrThen(V, Decimal(cp.v), [32] + (JoinWords(ts[1..]) + e));
    Associate(TAG_OPEN, JoinWords(ts), e);
    Associate(TAG_OPEN, V + [61, 34], Decimal(cp.v) + (Lit("\" processor=\"") + host));
  }

  lemma LastJoined(ws: seq<Text>)
    requires |ws| == 1
    ensures JoinWords(ws) == ws[0]
  {
  }
}
