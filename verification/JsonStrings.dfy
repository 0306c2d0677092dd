/** Quoted strings read back by the rules of RFC 8259, section 7. */
module JsonStrings {
  import opened Texts
  import opened KeyOrder
  import opened Printing

  function HexDigitValue(c: CodeUnit): Option<int> {
    if '0' as int <= c <= '9' as int then Some(c - '0' as int)
    else if 'a' as int <= c <= 'f' as int then Some(c - 'a' as int + 10)
    else if 'A' as int <= c <= 'F' as int then Some(c - 'A' as int + 10)
    else None
  }

  /** The unit a two-character escape stands for. */
  function Escaped(c: CodeUnit): Option<CodeUnit> {
    if c == '"' as int then Some('"' as int)
    else if c == '\\' as int then Some('\\' as int)
    else if c == '/' as int then Some('/' as int)
    else if c == 'b' as int then Some(8)
    else if c == 'f' as int then Some(12)
    else if c == 'n' as int then Some(10)
    else if c == 'r' as int then Some(13)
    else if c == 't' as int then Some(9)
    else None
  }

  /** One character of a string: the unit it stands for, and how many units it takes. */
  function Character(t: Text): Option<(CodeUnit, nat)> {
    if t == [] || t[0] < 32 || t[0] == '"' as int then None
    else if t[0] != '\\' as int then Some((t[0], 1))
    else if |t| >= 2 && Escaped(t[1]).Some? then Some((Escaped(t[1]).value, 2))
    else if |t| >= 6 && t[1] == 'u' as int && HexDigitValue(t[2]).Some? && HexDigitValue(t[3]).Some?
            && HexDigitValue(t[4]).Some? && HexDigitValue(t[5]).Some? then
      var n := 4096 * HexDigitValue(t[2]).value + 256 * HexDigitValue(t[3]).value + 16 * HexDigitValue(t[4]).value
               + HexDigitValue(t[5]).value;
      if 0 <= n < 0x1_0000 then Some((n, 6)) else None
    else None
  }

  /** The characters up to the closing quote, which ends the text. */
  function Unquoted(t: Text): Option<Text>
    decreases |t|
  {
    if t == ['"' as int] then Some([])
    else
      match Character(t)
      case None => None
      case Some((c, n)) =>
        if n == 0 || n > |t| then None
        else match Unquoted(t[n..]) case Some(s) => Some([c] + s) case None => None
  }

  /** The short escapes, in the spelling JSON.stringify uses. */
  lemma ShortEscapes(c: CodeUnit)
    ensures c == '"' as int ==> UnitToken(c) == Lit("\\\"")
    ensures c == '\\' as int ==> UnitToken(c) == Lit("\\\\")
    ensures c == 8 ==> UnitToken(c) == Lit("\\b")
    ensures c == 9 ==> UnitToken(c) == Lit("\\t")
    ensures c == 10 ==> UnitToken(c) == Lit("\\n")
    ensures c == 12 ==> UnitToken(c) == Lit("\\f")
    ensures c == 13 ==> UnitToken(c) == Lit("\\r")
    ensures c >= 32 && c != '"' as int && c != '\\' as int && !(0xD800 <= c < 0xE000) ==> UnitToken(c) == [c]
  {
  }

  predicate IsShort(c: CodeUnit) {
    c == 34 || c == 92 || c == 8 || c == 9 || c == 10 || c == 12 || c == 13
  }

  lemma ShortReads(c: CodeUnit, rest: Text)
    requires IsShort(c)
    ensures |UnitToken(c)| == 2 && Character(UnitToken(c) + rest) == Some((c, 2))
  {
    var t := UnitToken(c) + rest;
    assert t[0] == UnitToken(c)[0] && t[1] == UnitToken(c)[1];
  }

  lemma HexReads(d: int)
    requires 0 <= d < 16
    ensures HexDigitValue(HexDigit(d)) == Some(d)
  {
  }

  lemma UnicodeReads(c: CodeUnit, rest: Text)
    ensures Character(UnicodeEscape(c) + rest) == Some((c, 6))
  {
    var a, b, d, e := c / 16 / 16 / 16, c / 16 / 16 % 16, c / 16 % 16, c % 16;
    HexReads(a);
    HexReads(b);
    HexReads(d);
    HexReads(e);
    var x := UnicodeEscape(c);
    var t := x + rest;
    assert t[0] == x[0] && t[1] == x[1] && t[2] == x[2] && t[3] == x[3] && t[4] == x[4] && t[5] == x[5];
    hide HexDigit, HexDigitValue, UnicodeEscape;
    assert c == 4096 * a + 256 * b + 16 * d + e;
  }

  lemma UnitReads(c: CodeUnit, rest: Text)
    ensures Character(UnitToken(c) + rest) == Some((c, |UnitToken(c)|))
  {
    hide Character, UnicodeEscape;
    if IsShort(c) {
      ShortReads(c, rest);
    } else if c < 32 || High(c) || Low(c) {
      UnicodeReads(c, rest);
    } else {
      PlainReads(c, rest);
    }
  }

  lemma PlainReads(c: CodeUnit, rest: Text)
    requires c >= 32 && c != 34 && c != 92
    ensures Character([c] + rest) == Some((c, 1))
  {
  }

  /** A token in front of a text that reads back. */
  lemma TokenReads(token: Text, c: CodeUnit, rest: Text, s: Text)
    requires Character(token + rest) == Some((c, |token|)) && token != [] && Unquoted(rest) == Some(s)
    ensures Unquoted(token + rest) == Some([c] + s)
  {
    hide Character;
    var t := token + rest;
    assert t[|token|..] == rest;
    NotClosing(t, c, |token|);
  }

  lemma NotClosing(t: Text, c: CodeUnit, n: nat)
    requires Character(t) == Some((c, n))
    ensures t != [34] && n <= |t|
  {
  }

  lemma PairReads(s: Text, rest: Text, more: Text)
    requires Paired(s) && Unquoted(rest) == Some(more)
    ensures Unquoted(s[..2] + rest) == Some(s[..2] + more)
  {
    hide Unquoted, Character;
    PlainReads(s[1], rest);
    TokenReads([s[1]], s[1], rest, more);
    PlainReads(s[0], [s[1]] + rest);
    TokenReads([s[0]], s[0], [s[1]] + rest, [s[1]] + more);
    assert s[..2] + rest == [s[0]] + ([s[1]] + rest) && s[..2] + more == [s[0]] + ([s[1]] + more);
  }

  lemma EscapeStep(s: Text)
    requires s != []
    ensures Escape(s) == Token(s) + Escape(s[TokenWidth(s)..])
    ensures s == s[..TokenWidth(s)] + s[TokenWidth(s)..]
  {
    hide Token;
  }

  lemma ClosingReads()
    ensures Unquoted([34]) == Some([])
  {
  }

  /** Every string is read back from its quoted form. */
  lemma {:induction false} QuotedReadsBack(s: Text)
    ensures Unquoted(Escape(s) + [34]) == Some(s) && Quote(s) == [34] + (Escape(s) + [34])
    decreases |s|
  {
    hide Unquoted, Escape, UnitToken, Character, High, Low;
    if s == [] {
      ClosingReads();
      NothingEscaped();
    } else {
      var w := TokenWidth(s);
      var rest := Escape(s[w..]) + [34];
      QuotedReadsBack(s[w..]);
      EscapeStep(s);
      assert Escape(s) + [34] == Token(s) + rest;
      if Paired(s) {
        PairReads(s, rest, s[w..]);
      } else {
        UnitReads(s[0], rest);
        TokenReads(UnitToken(s[0]), s[0], rest, s[w..]);
        assert s[..1] == [s[0]];
      }
    }
  }

  lemma NothingEscaped()
    ensures Escape([]) + [34] == [34]
  {
  }
}
