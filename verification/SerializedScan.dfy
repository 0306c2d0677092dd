/** On a serialized request the array scanner finds the bracket of the first top-level message array. */
module SerializedScan {
  import opened Texts
  import opened Json
  import opened KeyOrder
  import opened Printing
  import opened PrintedMembers
  import opened Names
  import opened ByteCompare
  import opened ArrayScan

  const CONTENTS: Text := Lit("contents")

  // ---- UTF-8 ----

  /** A code unit outside surrogate pairs; a lone surrogate becomes U+FFFD. */
  function EncodeUnit(c: CodeUnit): Bytes {
    if c < 128 then [c]
    else if c < 2048 then [192 + c / 64, 128 + c % 64]
    else if High(c) || Low(c) then [239, 191, 189]
    else [224 + c / 4096, 128 + c / 64 % 64, 128 + c % 64]
  }

  function EncodePair(h: CodeUnit, l: CodeUnit): Bytes
    requires High(h) && Low(l)
  {
    var p := 0x10000 + (h - 0xD800) * 0x400 + (l - 0xDC00);
    [240 + p / 262144, 128 + p / 4096 % 64, 128 + p / 64 % 64, 128 + p % 64]
  }

  /** Buffer.from(text, "utf8"). */
  function Utf8(t: Text): Bytes {
    if t == [] then []
    else if Paired(t) then EncodePair(t[0], t[1]) + Utf8(t[2..])
    else EncodeUnit(t[0]) + Utf8(t[1..])
  }

  lemma Utf8Unit(c: CodeUnit, t: Text)
    requires !High(c)
    ensures Utf8([c] + t) == EncodeUnit(c) + Utf8(t)
  {
    assert ([c] + t)[1..] == t;
  }

  lemma Rejoin<T>(p: seq<T>, u: seq<T>)
    requires p != []
    ensures p + u == [p[0]] + (p[1..] + u)
  {
  }

  lemma {:induction false} Utf8Ascii(p: Bytes, t: Text)
    requires forall i :: 0 <= i < |p| ==> p[i] < 128
    ensures Utf8(p + t) == p + Utf8(t)
  {
    if p == [] {
      assert p + t == t;
    } else {
      hide Utf8;
      Utf8Ascii(p[1..], t);
      Rejoin(p, t);
      Utf8Unit(p[0], p[1..] + t);
      Rejoin(p, Utf8(t));
    }
  }

  /** Encoding is piecewise wherever the second piece starts with an ASCII character. */
  lemma {:induction false} Utf8Concat(a: Text, b: Text)
    requires b != [] && b[0] < 128
    ensures Utf8(a + b) == Utf8(a) + Utf8(b)
    decreases |a|
  {
    hide EncodePair, EncodeUnit;
    if a == [] {
      assert a + b == b;
    } else if Paired(a) {
      assert (a + b)[2..] == a[2..] + b;
      Utf8Concat(a[2..], b);
    } else {
      assert (a + b)[1..] == a[1..] + b;
      assert (a + b)[0] == a[0] && (|a| == 1 ==> (a + b)[1] == b[0]);
      assert |a| >= 2 ==> (a + b)[1] == a[1];
      Utf8Concat(a[1..], b);
    }
  }

  /** The bytes of one token of an escaped string. */
  lemma TokenBytes(s: Text, x: Text)
    requires s != []
    ensures Utf8(Token(s) + x) == Utf8(Token(s)) + Utf8(x)
  {
    hide EncodePair, EncodeUnit;
    var t := Token(s);
    if Paired(s) {
      assert (t + x)[2..] == x && t[2..] == [];
      assert (t + x)[0] == t[0] && (t + x)[1] == t[1];
    } else if |t| == 1 {
      Utf8Unit(t[0], x);
      Utf8Unit(t[0], []);
      assert t + [] == t && t == [t[0]];
    } else {
      Utf8Ascii(t, x);
      Utf8Ascii(t, []);
      assert t + [] == t;
    }
  }

  // ---- scanning strings ----

  lemma ScanHead(c: Byte, s: Bytes, m: Mode)
    ensures Scan([c] + s, m) == if Hit(m, c) then Some(1 + |s|) else Scan(s, Next(m, c, s))
  {
    assert ([c] + s)[1..] == s;
  }

  /** One ASCII character of the text. */
  lemma ScanUnit(c: Byte, t: Text, m: Mode)
    requires c < 128
    ensures Scan(Utf8([c] + t), m) == if Hit(m, c) then Some(1 + |Utf8(t)|) else Scan(Utf8(t), Next(m, c, Utf8(t)))
  {
    hide Scan, Utf8;
    Utf8Unit(c, t);
    ScanHead(c, Utf8(t), m);
  }

  lemma EscapedPair(x: Byte, s: Bytes, m: Mode)
    requires m.inStr && !m.esc
    ensures Scan([92, x] + s, m) == Scan(s, Grow(m, [92, x]))
  {
    hide Scan;
    assert [92, x] + s == [92] + ([x] + s);
    ScanHead(92, [x] + s, m);
    ScanHead(x, s, Grow(m, [92]).(esc := true));
    GrowTwice(m, [92], [x]);
    assert [92] + [x] == [92, x];
    assert Grow(Grow(m, [92]).(esc := true), [x]).(esc := false) == Grow(Grow(m, [92]), [x]);
  }

  lemma TokenScan(s: Text, x: Text, m: Mode)
    requires s != [] && m.inStr && !m.esc
    ensures Scan(Utf8(Token(s) + x), m) == Scan(Utf8(x), Grow(m, Utf8(Token(s))))
  {
    hide Scan, Grow, Utf8, Token;
    TokenBytes(s, x);
    TokenContent(s);
    TokenHop(Utf8(Token(s)), Utf8(x), m);
  }

  lemma TokenHop(b: Bytes, r: Bytes, m: Mode)
    requires m.inStr && !m.esc && b != [] && (b[0] == 92 ==> |b| >= 2)
    requires forall i :: (if b[0] == 92 then 2 else 0) <= i < |b| ==> Content(b[i])
    ensures Scan(b + r, m) == Scan(r, Grow(m, b))
  {
    hide Scan, Grow;
    if b[0] == 92 {
      var tail := b[2..];
      HeadAndTail(b, r);
      EscapedPair(b[1], tail + r, m);
      GrowKeepsString(m, [92, b[1]]);
      HopContent(tail, r, Grow(m, [92, b[1]]));
      GrowTwice(m, [92, b[1]], tail);
    } else {
      HopContent(b, r, m);
    }
  }

  lemma HeadAndTail(b: Bytes, r: Bytes)
    requires |b| >= 2
    ensures b == [b[0], b[1]] + b[2..] && b + r == [b[0], b[1]] + (b[2..] + r)
  {
  }

  lemma GrowKeepsString(m: Mode, bytes: Bytes)
    ensures Grow(m, bytes).inStr == m.inStr && Grow(m, bytes).esc == m.esc
  {
  }

  lemma PairTokenContent(t: Text)
    requires |t| == 2 && High(t[0]) && Low(t[1])
    ensures |Utf8(t)| == 4 && forall i :: 0 <= i < 4 ==> Utf8(t)[i] >= 128
  {
    assert t[2..] == [];
    PairBytes(t[0], t[1]);
    assert Utf8(t) == EncodePair(t[0], t[1]) + [];
  }

  lemma UnitTokenContent(c: CodeUnit)
    requires c >= 32 && c != QUOTE && c != BACKSLASH && !High(c) && !Low(c)
    ensures Utf8([c]) != [] && Utf8([c])[0] != 92 && forall i :: 0 <= i < |Utf8([c])| ==> Content(Utf8([c])[i])
  {
    Utf8Unit(c, []);
    assert [c] + [] == [c];
    assert Utf8([c]) == EncodeUnit(c) + [];
  }

  lemma EscapeTokenContent(t: Text)
    requires |t| >= 2 && t[0] == BACKSLASH && forall i :: 0 <= i < |t| ==> t[i] < 128
    ensures Utf8(t) == t
  {
    hide Utf8;
    Utf8Ascii(t, []);
    assert t + [] == t;
    NoBytes();
  }

  lemma NoBytes()
    ensures Utf8([]) == []
  {
  }

  /** A token is plain content, or a backslash, one byte, and plain content. */
  lemma TokenContent(s: Text)
    requires s != []
    ensures var b := Utf8(Token(s));
      && b != [] && (b[0] == 92 ==> |b| >= 2)
      && forall i :: (if b[0] == 92 then 2 else 0) <= i < |b| ==> Content(b[i])
  {
    hide Utf8, EncodePair, EncodeUnit;
    var t := Token(s);
    if Paired(s) {
      PairTokenContent(t);
    } else if |t| == 1 {
      UnitTokenContent(t[0]);
      assert t == [t[0]];
    } else {
      EscapeTokenContent(t);
    }
  }

  lemma PairBytes(h: CodeUnit, l: CodeUnit)
    requires High(h) && Low(l)
    ensures forall i :: 0 <= i < 4 ==> EncodePair(h, l)[i] >= 128
  {
  }

  lemma {:induction false} EscapeScan(s: Text, x: Text, m: Mode)
    requires m.inStr && !m.esc
    ensures Scan(Utf8(Escape(s) + x), m) == Scan(Utf8(x), Grow(m, Utf8(Escape(s))))
  {
    hide Scan, Token, TokenWidth, Grow;
    if s == [] {
      assert Escape(s) + x == x;
      GrowNothing(m);
    } else {
      var rest := s[TokenWidth(s)..];
      assert Escape(s) + x == Token(s) + (Escape(rest) + x);
      TokenScan(s, Escape(rest) + x, m);
      GrowKeepsString(m, Utf8(Token(s)));
      EscapeScan(rest, x, Grow(m, Utf8(Token(s))));
      TokenBytes(s, Escape(rest));
      GrowTwice(m, Utf8(Token(s)), Utf8(Escape(rest)));
    }
  }

  lemma GrowNothing(m: Mode)
    ensures Grow(m, []) == m
  {
    assert m.key.Some? ==> m.key.value + [] == m.key.value;
  }

  predicate Idle(m: Mode) {
    !m.inStr && !m.esc && m.key.None?
  }

  /** A quoted string leaves the mode alone, unless it names the messages at depth one and an array follows. */
  lemma QuoteScan(s: Text, x: Text, m: Mode)
    requires Idle(m)
    ensures Scan(Utf8(Quote(s) + x), m) ==
      Scan(Utf8(x),
           if m.depth == 1 && Utf8(Escape(s)) in NAMES && ArrayFollows(Utf8(x)) then m.(want := Some(2)) else m)
  {
    hide Scan, Utf8, Escape, ArrayFollows;
    var inside := m.(inStr := true, key := if m.depth == 1 then Some([]) else None);
    assert Quote(s) + x == [34] + (Escape(s) + ([34] + x));
    ScanUnit(34, Escape(s) + ([34] + x), m);
    EscapeScan(s, [34] + x, inside);
    ScanUnit(34, x, Grow(inside, Utf8(Escape(s))));
    assert [] + Utf8(Escape(s)) == Utf8(Escape(s));
  }

  // ---- scanning values ----

  /** Not tracking, or tracking an array at depth two while inside it. */
  predicate Deep(m: Mode) {
    Idle(m) && m.depth >= 2 && (m.want.None? || m.want == Some(2))
  }

  /** At the top of the object, before any message array, with a separator next. */
  predicate Top(m: Mode, x: Text) {
    Idle(m) && m.depth == 1 && m.want.None? && x != [] && (x[0] == COMMA || x[0] == CLOSE_OBJECT)
  }

  lemma NoArrayNext(x: Text)
    requires x != [] && (x[0] == COMMA || x[0] == CLOSE_OBJECT)
    ensures !ArrayFollows(Utf8(x))
  {
    Utf8Unit(x[0], x[1..]);
    assert x == [x[0]] + x[1..];
  }

  lemma FillerScan(p: Bytes, x: Text, m: Mode)
    requires !m.inStr && forall i :: 0 <= i < |p| ==> Filler(p[i]) && p[i] < 128
    ensures Scan(Utf8(p + x), m) == Scan(Utf8(x), m)
  {
    hide Scan;
    Utf8Ascii(p, x);
    HopFiller(p, Utf8(x), m);
  }

  lemma NumberScan(d: Text, x: Text, m: Mode)
    requires !m.inStr && NumberText(d)
    ensures Scan(Utf8(NumText(d, Plain) + x), m) == Scan(Utf8(x), m)
  {
    hide Scan, Utf8;
    var t := NumText(d, Plain);
    assert forall i :: 0 <= i < |t| ==> NumberChar(t[i]);
    FillerScan(t, x, m);
  }

  /** A printed value is passed over. */
  lemma {:induction false} ValueScan(v: Json, x: Text, m: Mode)
    requires WellFormed(v) && (Deep(m) || Top(m, x))
    ensures Scan(Utf8(Stringify(v) + x), m) == Scan(Utf8(x), m)
    decreases v, 0
  {
    hide Scan, Utf8, Quote, NumText, PrintItems, PrintMembers, JoinMembers, ArrayFollows;
    match v
    case Null => FillerScan(Lit("null"), x, m);
    case Bool(b) => FillerScan(if b then Lit("true") else Lit("false"), x, m);
    case Num(d) => NumberScan(d, x, m);
    case Str(s) =>
      QuoteScan(s, x, m);
      if m.depth == 1 {
        NoArrayNext(x);
      }
    case Arr(es) => ArrayScanned(es, x, m);
    case Obj(fs) => ObjectScanned(fs, x, m);
  }

  lemma {:induction false} ArrayScanned(es: seq<Json>, x: Text, m: Mode)
    requires (forall i :: 0 <= i < |es| ==> WellFormed(es[i])) && (Deep(m) || Top(m, x))
    ensures Scan(Utf8(Stringify(Arr(es)) + x), m) == Scan(Utf8(x), m)
    decreases es, 1
  {
    hide Scan, Utf8, PrintItems, WellFormed;
    var inside := m.(depth := m.depth + 1);
    assert Stringify(Arr(es)) + x == [91] + (PrintItems(es, Plain) + ([93] + x));
    ScanUnit(91, PrintItems(es, Plain) + ([93] + x), m);
    ItemsScan(es, [93] + x, inside);
    ScanUnit(93, x, inside);
  }

  lemma {:induction false} ObjectScanned(fs: seq<Field>, x: Text, m: Mode)
    requires (forall i :: 0 <= i < |fs| ==> WellFormed(fs[i].val)) && (Deep(m) || Top(m, x))
    ensures Scan(Utf8(Stringify(Obj(fs)) + x), m) == Scan(Utf8(x), m)
    decreases fs, 1
  {
    hide Scan, Utf8, PrintMembers, JoinMembers, WellFormed;
    var inside := m.(depth := m.depth + 1);
    assert Stringify(Obj(fs)) + x == [123] + (Members(fs) + ([125] + x));
    ScanUnit(123, Members(fs) + ([125] + x), m);
    MembersScan(fs, [125] + x, inside);
    ScanUnit(125, x, inside);
  }

  lemma {:induction false} ItemsScan(es: seq<Json>, x: Text, m: Mode)
    requires Deep(m) && forall i :: 0 <= i < |es| ==> WellFormed(es[i])
    ensures Scan(Utf8(PrintItems(es, Plain) + x), m) == Scan(Utf8(x), m)
    decreases es, 0
  {
    hide Scan, Utf8, Print, WellFormed;
    if es == [] {
      assert PrintItems(es, Plain) + x == x;
    } else if |es| == 1 {
      ValueScan(es[0], x, m);
    } else {
      var rest := PrintItems(es[1..], Plain) + x;
      assert PrintItems(es, Plain) + x == Print(es[0], Plain) + ([44] + rest);
      ValueScan(es[0], [44] + rest, m);
      ScanUnit(44, rest, m);
      ItemsScan(es[1..], x, m);
    }
  }

  lemma {:induction false} MembersScan(fs: seq<Field>, x: Text, m: Mode)
    requires Deep(m) && forall i :: 0 <= i < |fs| ==> WellFormed(fs[i].val)
    ensures Scan(Utf8(Members(fs) + x), m) == Scan(Utf8(x), m)
    decreases fs, 0
  {
    hide Scan, Utf8, Print, WellFormed, Quote, Members;
    if fs == [] {
      assert Members(fs) + x == x by {
        NoMembers();
      }
    } else {
      var rest := Rest(fs[1..]) + x;
      var val := Stringify(fs[0].val);
      MembersAhead(fs, x);
      hide Rest;
      QuoteScan(fs[0].key, [58] + (val + rest), m);
      ScanUnit(58, val + rest, m);
      ValueScan(fs[0].val, rest, m);
      if |fs| > 1 {
        ScanUnit(44, Members(fs[1..]) + x, m);
        MembersScan(fs[1..], x, m);
      }
    }
  }

  // ---- the top level of a request ----

  /** The keys the array may stand under. */
  predicate MessageKey(k: Text) {
    k == MESSAGES || k == INPUT || k == CONTENTS
  }

  /** A token that is not one of the backslash escapes stands for itself. */
  lemma TokenPlain(s: Text)
    requires s != []
    ensures var b := Utf8(Token(s)); b != [] && (b[0] < 128 && b[0] != 92 ==> TokenWidth(s) == 1 && b == [s[0]])
  {
    var t := Token(s);
    TokenContent(s);
    if Paired(s) {
      assert t[2..] == [];
      PairBytes(t[0], t[1]);
      assert Utf8(t)[0] == EncodePair(t[0], t[1])[0];
    } else if |t| == 1 {
      Utf8Unit(t[0], []);
      assert t + [] == t && t == [t[0]];
      assert Utf8(t) == EncodeUnit(t[0]) + [];
    } else {
      Utf8Ascii(t, []);
      assert t + [] == t;
    }
  }

  /** Bytes without backslashes and beyond-ASCII bytes come only from themselves. */
  lemma {:induction false} EscapeOfPlain(s: Text, p: Bytes)
    requires forall i :: 0 <= i < |p| ==> p[i] < 128 && p[i] != 92
    requires Utf8(Escape(s)) == p
    ensures s == p
  {
    if s != [] {
      hide Token, Utf8;
      var rest := s[TokenWidth(s)..];
      TokenBytes(s, Escape(rest));
      TokenPlain(s);
      assert p[0] == Utf8(Token(s))[0];
      assert p == [s[0]] + Utf8(Escape(rest));
      assert p[1..] == Utf8(Escape(rest));
      EscapeOfPlain(rest, p[1..]);
      assert s == [s[0]] + rest;
    }
  }

  lemma LettersEncoded(s: Text)
    requires forall i :: 0 <= i < |s| ==> IsLower(s[i])
    ensures Utf8(Escape(s)) == s
  {
    EscapeLetters(s);
    assert forall i :: 0 <= i < |s| ==> IsLower(s[i]) && s[i] < 128;
    Utf8Ascii(s, []);
    Utf8Nothing();
    assert s + [] == s;
  }

  lemma LowerNames()
    ensures forall i :: 0 <= i < |MESSAGES| ==> IsLower(MESSAGES[i])
    ensures forall i :: 0 <= i < |INPUT| ==> IsLower(INPUT[i])
    ensures forall i :: 0 <= i < |CONTENTS| ==> IsLower(CONTENTS[i])
    ensures MESSAGES == Ascii("messages") && INPUT == Ascii("input") && CONTENTS == Ascii("contents")
  {
  }

  /** The raw comparison of key bytes recognises exactly the three names. */
  lemma KeyBytes(k: Text)
    ensures Utf8(Escape(k)) in NAMES <==> MessageKey(k)
  {
    hide Utf8, Escape;
    LowerNames();
    if MessageKey(k) {
      LettersEncoded(k);
    }
    if Utf8(Escape(k)) in NAMES {
      EscapeOfPlain(k, Utf8(Escape(k)));
    }
  }

  /** A value is an array exactly when its text starts with a bracket. */
  lemma ArrayIsNext(v: Json, x: Text)
    requires WellFormed(v)
    ensures ArrayFollows(Utf8([58] + (Stringify(v) + x))) <==> v.Arr?
  {
    var t := Stringify(v);
    ValueHead(v);
    Utf8Unit(58, t + x);
    assert t + x == [t[0]] + (t[1..] + x);
    Utf8Unit(t[0], t[1..] + x);
    var b := Utf8([58] + (t + x));
    assert b[1..] == Utf8(t + x);
  }

  lemma ValueHead(v: Json)
    requires WellFormed(v)
    ensures var t := Stringify(v); t != [] && 32 < t[0] < 128 && (t[0] == 91 <==> v.Arr?)
  {
  }

  /** The first member whose key names the messages and whose value is an array. */
  function FirstArray(fs: seq<Field>): (k: nat)
    ensures k <= |fs|
    ensures k < |fs| ==> MessageKey(fs[k].key) && fs[k].val.Arr?
    ensures forall i :: 0 <= i < k ==> !(MessageKey(fs[i].key) && fs[i].val.Arr?)
  {
    if fs == [] || (MessageKey(fs[0].key) && fs[0].val.Arr?) then 0 else 1 + FirstArray(fs[1..])
  }

  /** The serialized members up to just before the bracket that closes the array of member k. */
  function UpTo(fs: seq<Field>, k: nat): Text
    requires k < |fs| && fs[k].val.Arr?
  {
    Before(fs, k) + [OPEN_ARRAY] + PrintItems(fs[k].val.elems, Plain)
  }

  lemma Utf8Nothing()
    ensures Utf8([]) == []
  {
  }

  /** A key and its colon: tracking starts exactly at a message array. */
  lemma KeyScan(f: Field, x: Text, m: Mode)
    requires WellFormed(f.val) && Idle(m) && m.depth == 1
    ensures var val := Stringify(f.val);
      Scan(Utf8(Quote(f.key) + ([COLON] + (val + x))), m) ==
        Scan(Utf8(val + x), if MessageKey(f.key) && f.val.Arr? then m.(want := Some(2)) else m)
  {
    hide Scan, Utf8, Print, WellFormed, Quote, MessageKey, ArrayFollows, Escape;
    var val := Stringify(f.val);
    QuoteScan(f.key, [58] + (val + x), m);
    KeyBytes(f.key);
    ArrayIsNext(f.val, x);
    ScanUnit(58, val + x, if MessageKey(f.key) && f.val.Arr? then m.(want := Some(2)) else m);
  }

  /** The first member: the array is entered and its bracket found, or the member is passed over. */
  lemma MemberScan(f: Field, x: Text, m: Mode)
    requires WellFormed(f.val) && Idle(m) && m.depth == 1 && m.want.None?
    requires x != [] && (x[0] == COMMA || x[0] == CLOSE_OBJECT)
    ensures Scan(Utf8(Quote(f.key) + ([COLON] + (Stringify(f.val) + x))), m) ==
      if MessageKey(f.key) && f.val.Arr? then Some(1 + |Utf8(x)|) else Scan(Utf8(x), m)
  {
    assert f.val.Arr? ==> forall i :: 0 <= i < |f.val.elems| ==> WellFormed(f.val.elems[i]);
    hide Scan, Utf8, Print, WellFormed, Quote, MessageKey, ArrayFollows, Stringify;
    KeyScan(f, x, m);
    if MessageKey(f.key) && f.val.Arr? {
      TrackedScan(f.val.elems, x, m.(want := Some(2)));
    } else {
      ValueScan(f.val, x, m);
    }
  }

  lemma TrackedScan(es: seq<Json>, x: Text, m: Mode)
    requires (forall i :: 0 <= i < |es| ==> WellFormed(es[i])) && Idle(m) && m.depth == 1 && m.want == Some(2)
    ensures Scan(Utf8(Stringify(Arr(es)) + x), m) == Some(1 + |Utf8(x)|)
  {
    hide Scan, Utf8, PrintItems, WellFormed;
    var inside := m.(depth := 2);
    assert Stringify(Arr(es)) + x == [91] + (PrintItems(es, Plain) + ([93] + x));
    ScanUnit(91, PrintItems(es, Plain) + ([93] + x), m);
    ItemsScan(es, [93] + x, inside);
    ScanUnit(93, x, inside);
  }

  /** Scanning the top-level members stops at the bracket of the first message array, or runs through. */
  lemma {:induction false} TopScan(fs: seq<Field>, m: Mode)
    requires forall i :: 0 <= i < |fs| ==> WellFormed(fs[i].val)
    requires Idle(m) && m.depth == 1 && m.want.None?
    ensures var k := FirstArray(fs);
      Scan(Utf8(Members(fs) + [CLOSE_OBJECT]), m) ==
        if k < |fs| then Some(1 + |Utf8(Rest(fs[k + 1..]) + [CLOSE_OBJECT])|) else None
    decreases |fs|
  {
    hide Scan, Utf8, Print, WellFormed, Quote, Members, MessageKey, ArrayFollows;
    if fs == [] {
      NoMembers();
      ObjectEnds(m);
    } else {
      var x := Rest(fs[1..]) + [125];
      MembersAhead(fs, [125]);
      RestStarts(fs[1..]);
      MemberScan(fs[0], x, m);
      if FirstArray(fs) == 0 {
        assert fs[0 + 1..] == fs[1..];
      } else {
        hide Rest;
        if fs[1..] == [] {
          ObjectEnds(m);
        } else {
          ScanUnit(44, Members(fs[1..]) + [125], m);
          TopScan(fs[1..], m);
          assert FirstArray(fs) < |fs| ==> fs[1..][FirstArray(fs)..] == fs[FirstArray(fs) + 1..];
        }
      }
    }
  }

  lemma ObjectEnds(m: Mode)
    requires Idle(m) && m.want.None?
    ensures Scan(Utf8([] + [CLOSE_OBJECT]), m) == None && Scan(Utf8([CLOSE_OBJECT]), m) == None
  {
    hide Scan, Utf8;
    ScanUnit(125, [], m);
    Utf8Nothing();
    ScanNone([], m.(depth := m.depth - 1));
    assert [125] + [] == [] + [CLOSE_OBJECT] == [CLOSE_OBJECT];
  }

  lemma RestStarts(fs: seq<Field>)
    ensures var x := Rest(fs) + [CLOSE_OBJECT]; x != [] && (x[0] == COMMA || x[0] == CLOSE_OBJECT)
  {
  }

  /** The text splits at the closing bracket. */
  lemma SplitAtBracket(fs: seq<Field>, k: nat)
    requires k < |fs| && fs[k].val.Arr?
    ensures Members(fs) == UpTo(fs, k) + [CLOSE_ARRAY] + Rest(fs[k + 1..])
  {
    hide PrintItems, Members, Before, Rest;
    CutAtValue(fs, k);
    var b, items, r := Before(fs, k), PrintItems(fs[k].val.elems, Plain), Rest(fs[k + 1..]);
    assert b + ([OPEN_ARRAY] + items + [CLOSE_ARRAY]) + r == b + [OPEN_ARRAY] + items + [CLOSE_ARRAY] + r;
  }

  /**
   * On the compact UTF-8 serialization of any object the answer is the closing bracket of the first top-level
   * messages, input or contents member that is an array, and nothing when there is none.
   */
  lemma FindsTheMessages(fs: seq<Field>)
    requires WellFormed(Obj(fs))
    ensures var k := FirstArray(fs);
      CloseOffset(Utf8(Stringify(Obj(fs)))) ==
        if k < |fs| then Some(|Utf8([OPEN_OBJECT] + UpTo(fs, k))|) else None
    ensures var k := FirstArray(fs);
      k < |fs| ==> Stringify(Obj(fs)) == [OPEN_OBJECT] + UpTo(fs, k) + [CLOSE_ARRAY] + Rest(fs[k + 1..]) + [CLOSE_OBJECT]
  {
    hide Scan, Utf8, PrintMembers, JoinMembers, UpTo, Rest, FirstArray;
    var k := FirstArray(fs);
    var text := Stringify(Obj(fs));
    assert text == [123] + (Members(fs) + [125]);
    ScanUnit(123, Members(fs) + [125], Init);
    TopScan(fs, Init.(depth := 1));
    if k < |fs| {
      var head, tail := [OPEN_OBJECT] + UpTo(fs, k), Rest(fs[k + 1..]) + [CLOSE_OBJECT];
      SplitAtBracket(fs, k);
      assert text == head + ([93] + tail);
      Utf8Concat(head, [93] + tail);
      Utf8Unit(93, tail);
    }
  }
}
