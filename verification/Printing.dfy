/** Compact JSON printing, in the three arrangements of object members the sources use. */
module Printing {
  import opened Texts
  import opened Json
  import opened KeyOrder

  /**
   * Jcs: keys sorted by code point, negative zero kept. Canon: keys as a rebuilt object lists them
   * and negative zero lost. Plain: JSON.stringify on the object as it stands.
   */
  datatype Style = Jcs | Canon | Plain

  const QUOTE: CodeUnit := 34
  const COMMA: CodeUnit := 44
  const COLON: CodeUnit := 58
  const OPEN_ARRAY: CodeUnit := 91
  const BACKSLASH: CodeUnit := 92
  const CLOSE_ARRAY: CodeUnit := 93
  const OPEN_OBJECT: CodeUnit := 123
  const CLOSE_OBJECT: CodeUnit := 125

  function HexDigit(d: int): CodeUnit
    requires 0 <= d < 16
  {
    if d < 10 then 48 + d else 87 + d
  }

  /** The escape \uXXXX in lower case. */
  function UnicodeEscape(c: CodeUnit): (t: Text)
    ensures |t| == 6 && t[0] == BACKSLASH && t[1] == 117
  {
    [BACKSLASH, 117, HexDigit(c / 16 / 16 / 16), HexDigit(c / 16 / 16 % 16), HexDigit(c / 16 % 16), HexDigit(c % 16)]
  }

  predicate Paired(s: Text) {
    |s| >= 2 && High(s[0]) && Low(s[1])
  }

  /** What QuoteJSONString writes for one code unit that is not part of a surrogate pair. */
  function UnitToken(c: CodeUnit): (t: Text)
    ensures |t| >= 1 && t[0] != QUOTE
  {
    if c == QUOTE then [BACKSLASH, QUOTE]
    else if c == BACKSLASH then [BACKSLASH, BACKSLASH]
    else if c == 8 then [BACKSLASH, 98]
    else if c == 9 then [BACKSLASH, 116]
    else if c == 10 then [BACKSLASH, 110]
    else if c == 12 then [BACKSLASH, 102]
    else if c == 13 then [BACKSLASH, 114]
    else if c < 32 || High(c) || Low(c) then UnicodeEscape(c)
    else [c]
  }

  function TokenWidth(s: Text): (w: nat)
    requires s != []
    ensures 1 <= w <= |s|
  {
    if Paired(s) then 2 else 1
  }

  function Token(s: Text): (t: Text)
    requires s != []
    ensures |t| >= 1 && t[0] != QUOTE
  {
    if Paired(s) then s[..2] else UnitToken(s[0])
  }

  function Escape(s: Text): Text {
    if s == [] then [] else Token(s) + Escape(s[TokenWidth(s)..])
  }

  function Quote(s: Text): Text {
    [QUOTE] + Escape(s) + [QUOTE]
  }

  function NumText(d: Text, style: Style): Text {
    if style != Jcs && d == Lit("-0") then Lit("0") else d
  }

  function JoinMembers(ms: seq<Keyed<Text>>): Text {
    if ms == [] then []
    else if |ms| == 1 then Quote(ms[0].key) + [COLON] + ms[0].item
    else Quote(ms[0].key) + [COLON] + ms[0].item + [COMMA] + JoinMembers(ms[1..])
  }

  /** A canonical array index: decimal, no leading zero, below 2^32 - 1. */
  predicate ArrayIndex(k: Text) {
    && 1 <= |k| <= 10
    && (forall i :: 0 <= i < |k| ==> IsDigit(k[i]))
    && (k[0] != 48 || |k| == 1)
    && FromDecimal(k) < 0xFFFF_FFFF
  }

  /** Own-key order of a rebuilt object: indices ascending, then the sorted string keys. */
  function OwnKeyRank(k: Text): seq<int> {
    if ArrayIndex(k) then [0, FromDecimal(k)] else [1] + k
  }

  function DropProto(ms: seq<Keyed<Text>>): seq<Keyed<Text>> {
    if ms == [] then []
    else if ms[0].key == Lit("__proto__") then DropProto(ms[1..])
    else [ms[0]] + DropProto(ms[1..])
  }

  function Arrange(ms: seq<Keyed<Text>>, style: Style): seq<Keyed<Text>> {
    match style
    case Jcs => SortByRank(ms, CodePoints)
    case Canon => SortByRank(DropProto(ms), OwnKeyRank)
    case Plain => ms
  }

  function Print(v: Json, style: Style): Text
    decreases v
  {
    match v
    case Null => Lit("null")
    case Bool(b) => if b then Lit("true") else Lit("false")
    case Num(d) => NumText(d, style)
    case Str(s) => Quote(s)
    case Arr(es) => [OPEN_ARRAY] + PrintItems(es, style) + [CLOSE_ARRAY]
    case Obj(fs) => [OPEN_OBJECT] + JoinMembers(Arrange(PrintMembers(fs, style), style)) + [CLOSE_OBJECT]
  }

  function PrintItems(es: seq<Json>, style: Style): Text
    decreases es
  {
    if es == [] then []
    else if |es| == 1 then Print(es[0], style)
    else Print(es[0], style) + [COMMA] + PrintItems(es[1..], style)
  }

  function PrintMembers(fs: seq<Field>, style: Style): (ms: seq<Keyed<Text>>)
    ensures |ms| == |fs|
    ensures forall i :: 0 <= i < |fs| ==> ms[i].key == fs[i].key
    decreases fs
  {
    if fs == [] then [] else [Keyed(fs[0].key, Print(fs[0].val, style))] + PrintMembers(fs[1..], style)
  }

  /** jcsStringify. */
  function JcsStringify(v: Json): Text {
    Print(v, Jcs)
  }

  /** JSON.stringify. */
  function Stringify(v: Json): Text {
    Print(v, Plain)
  }

  /** The canonical printer writes a number as JSON.stringify does, negative zero alone excepted. */
  lemma NegativeZeroKept(d: Text)
    ensures JcsStringify(Num(d)) == Stringify(Num(d)) <==> d != Lit("-0")
  {
    assert |Lit("-0")| != |Lit("0")|;
  }
}
