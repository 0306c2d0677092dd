/** Finding the elements of a message array in the text of a request. */
module WireSpans {
  import opened Texts
  import opened Json
  import opened Printing
  import opened PrintedMembers

  datatype Span = Span(from: nat, to: nat)

  predicate Blank(c: CodeUnit) {
    c == 32 || c == 9 || c == 10 || c == 13
  }

  predicate Opens(c: CodeUnit) {
    c == OPEN_OBJECT || c == OPEN_ARRAY
  }

  predicate Closes(c: CodeUnit) {
    c == CLOSE_OBJECT || c == CLOSE_ARRAY
  }

  // ---- lengths, on the rest of the text ----

  function Blanks(s: Text): (n: nat)
    ensures n <= |s|
    ensures forall i :: 0 <= i < n ==> Blank(s[i])
    ensures n < |s| ==> !Blank(s[n])
  {
    if s == [] || !Blank(s[0]) then 0 else 1 + Blanks(s[1..])
  }

  /** How far a bracketed value reaches, given how deep the scan is and whether it is in a string. */
  function Nested(s: Text, depth: int, inStr: bool, esc: bool): (n: nat)
    ensures n <= |s|
  {
    if s == [] then 0
    else
      var c, rest := s[0], s[1..];
      if inStr then
        if esc then 1 + Nested(rest, depth, true, false)
        else if c == BACKSLASH then 1 + Nested(rest, depth, true, true)
        else if c == QUOTE then 1 + Nested(rest, depth, false, false)
        else 1 + Nested(rest, depth, true, false)
      else if c == QUOTE then 1 + Nested(rest, depth, true, false)
      else if Opens(c) then 1 + Nested(rest, depth + 1, false, false)
      else if Closes(c) then if depth - 1 == 0 then 1 else 1 + Nested(rest, depth - 1, false, false)
      else 1 + Nested(rest, depth, false, false)
  }

  /** How far a string reaches after its opening quote; a final backslash reaches one past the end. */
  function StringTail(s: Text): (n: nat)
    ensures n <= |s| + 1
  {
    if s == [] then 0
    else if s[0] == BACKSLASH then if |s| == 1 then 2 else 2 + StringTail(s[2..])
    else if s[0] == QUOTE then 1
    else 1 + StringTail(s[1..])
  }

  function Scalar(s: Text): (n: nat)
    ensures n <= |s|
  {
    if s == [] || s[0] == COMMA || s[0] == CLOSE_ARRAY then 0 else 1 + Scalar(s[1..])
  }

  function ElementLength(s: Text): (n: nat)
    requires s != []
    ensures n <= |s| + 1
  {
    if Opens(s[0]) then Nested(s, 0, false, false)
    else if s[0] == QUOTE then 1 + StringTail(s[1..])
    else Scalar(s)
  }

  /** The spans of the elements that follow; at is the offset of the rest in the text. */
  function Spans(s: Text, at: nat): seq<Span>
    decreases |s|, 1
  {
    var w := Blanks(s);
    if w == |s| || s[w] == CLOSE_ARRAY then []
    else
      var n := ElementLength(s[w..]);
      [Span(at + w, at + w + n)] + Further(if w + n <= |s| then s[w + n..] else [], at + w + n)
  }

  /** The spans after a comma, if one comes next. */
  function Further(s: Text, at: nat): seq<Span>
    decreases |s|, 0
  {
    if s != [] && s[0] == COMMA then Spans(s[1..], at + 1) else []
  }

  // ---- the scanner ----

  method SkipBlanks(text: Text, from: nat) returns (i: nat)
    requires from <= |text|
    ensures i == from + Blanks(text[from..]) && i <= |text|
  {
    i := from;
    while i < |text| && Blank(text[i])
      invariant from <= i <= |text|
      invariant from + Blanks(text[from..]) == i + Blanks(text[i..])
    {
      assert text[i..][1..] == text[i + 1..];
      i := i + 1;
    }
  }

  /** One character further. */
  lemma NestedStep(text: Text, i: nat, depth: int, inStr: bool, esc: bool)
    requires i < |text|
    ensures var c, n := text[i], Nested(text[i..], depth, inStr, esc);
      if inStr then
        if esc then n == 1 + Nested(text[i + 1..], depth, true, false)
        else n == 1 + Nested(text[i + 1..], depth, c != QUOTE, c == BACKSLASH)
      else if c == QUOTE then n == 1 + Nested(text[i + 1..], depth, true, false)
      else if Opens(c) then n == 1 + Nested(text[i + 1..], depth + 1, false, false)
      else if Closes(c) then n == 1 + if depth == 1 then 0 else Nested(text[i + 1..], depth - 1, false, false)
      else n == 1 + Nested(text[i + 1..], depth, false, false)
  {
    assert text[i..][1..] == text[i + 1..];
  }

  lemma NestedEnds(s: Text, depth: int, inStr: bool, esc: bool)
    ensures s == [] ==> Nested(s, depth, inStr, esc) == 0
  {
  }

  method SkipNested(text: Text, from: nat) returns (i: nat)
    requires from < |text|
    ensures i == from + Nested(text[from..], 0, false, false) && i <= |text|
  {
    hide Nested;
    var depth, inStr, esc := 0, false, false;
    i := from;
    while i < |text|
      invariant from <= i <= |text|
      invariant !inStr ==> !esc
      invariant from + Nested(text[from..], 0, false, false) == i + Nested(text[i..], depth, inStr, esc)
    {
      var c := text[i];
      NestedStep(text, i, depth, inStr, esc);
      if inStr {
        if esc {
          esc := false;
        } else if c == BACKSLASH {
          esc := true;
        } else if c == QUOTE {
          inStr := false;
        }
      } else if c == QUOTE {
        inStr, esc := true, false;
      } else if Opens(c) {
        depth := depth + 1;
      } else if Closes(c) {
        depth := depth - 1;
        if depth == 0 {
          return i + 1;
        }
      }
      i := i + 1;
    }
    NestedEnds(text[i..], depth, inStr, esc);
  }

  method SkipString(text: Text, from: nat) returns (i: nat)
    requires from < |text|
    ensures i == from + 1 + StringTail(text[from + 1..]) && i <= |text| + 1
  {
    i := from + 1;
    while i < |text|
      invariant from < i <= |text| + 1
      invariant from + 1 + StringTail(text[from + 1..]) == if i <= |text| then i + StringTail(text[i..]) else i
    {
      var c := text[i];
      assert text[i..][1..] == text[i + 1..];
      if c == BACKSLASH {
        assert i + 2 <= |text| ==> text[i..][2..] == text[i + 2..];
        i := i + 2;
        continue;
      }
      if c == QUOTE {
        return i + 1;
      }
      i := i + 1;
    }
  }

  method SkipScalar(text: Text, from: nat) returns (i: nat)
    requires from <= |text|
    ensures i == from + Scalar(text[from..]) && i <= |text|
  {
    i := from;
    while i < |text| && text[i] != COMMA && text[i] != CLOSE_ARRAY
      invariant from <= i <= |text|
      invariant from + Scalar(text[from..]) == i + Scalar(text[i..])
    {
      assert text[i..][1..] == text[i + 1..];
      i := i + 1;
    }
  }

  method SkipElement(text: Text, from: nat) returns (e: nat)
    requires from < |text|
    ensures e == from + ElementLength(text[from..]) && e <= |text| + 1
  {
    hide Nested, StringTail, Scalar;
    if Opens(text[from]) {
      e := SkipNested(text, from);
    } else if text[from] == QUOTE {
      assert text[from..][1..] == text[from + 1..];
      e := SkipString(text, from);
    } else {
      e := SkipScalar(text, from);
    }
  }

  /** One element, and what follows it. */
  lemma SpansStep(text: Text, i: nat, s: nat, e: nat)
    requires i <= s < |text| && s == i + Blanks(text[i..]) && text[s] != CLOSE_ARRAY
    requires e == s + ElementLength(text[s..])
    ensures Spans(text[i..], i) ==
      [Span(s, e)] + (if e < |text| && text[e] == COMMA then Spans(text[e + 1..], e + 1) else [])
  {
    hide Blanks, ElementLength, Further;
    DropDrop(text, i, s - i);
    if e <= |text| {
      DropDrop(text, i, e - i);
      FurtherAt(text, e);
    } else {
      FurtherNone(e);
    }
  }

  lemma FurtherAt(text: Text, e: nat)
    requires e <= |text|
    ensures Further(text[e..], e) == if e < |text| && text[e] == COMMA then Spans(text[e + 1..], e + 1) else []
  {
    hide Spans;
    if e < |text| {
      DropDrop(text, e, 1);
    }
  }

  lemma FurtherNone(e: nat)
    ensures Further([], e) == []
  {
  }

  lemma DropDrop(text: Text, i: nat, k: nat)
    requires i + k <= |text|
    ensures text[i..][k..] == text[i + k..]
  {
  }

  lemma SpansEnd(text: Text, i: nat, s: nat)
    requires i <= s <= |text| && s == i + Blanks(text[i..]) && (s < |text| ==> text[s] == CLOSE_ARRAY)
    ensures Spans(text[i..], i) == []
  {
    hide Blanks, ElementLength;
  }

  /** elementSpans: arrStart is the offset of the opening bracket. */
  method ElementSpans(text: Text, arrStart: nat) returns (spans: seq<Span>)
    requires arrStart < |text|
    ensures spans == Spans(text[arrStart + 1..], arrStart + 1)
  {
    hide ElementLength, Blanks, Spans;
    spans := [];
    var i := arrStart + 1;
    while i < |text|
      invariant arrStart < i <= |text|
      invariant Spans(text[arrStart + 1..], arrStart + 1) == spans + Spans(text[i..], i)
    {
      var s := SkipBlanks(text, i);
      if s >= |text| || text[s] == CLOSE_ARRAY {
        SpansEnd(text, i, s);
        return;
      }
      var e := SkipElement(text, s);
      SpansStep(text, i, s, e);
      spans := spans + [Span(s, e)];
      if e < |text| && text[e] == COMMA {
        i := e + 1;
      } else {
        return;
      }
    }
    NoSpans(text[i..], i);
  }

  lemma NoSpans(s: Text, at: nat)
    requires s == []
    ensures Spans(s, at) == []
  {
  }

  // ---- on serialized values ----

  predicate Inert(c: CodeUnit) {
    c != QUOTE && c != BACKSLASH
  }

  /** A token of an escaped string: plain units, or a backslash, one unit, and plain units. */
  lemma TokenShape(s: Text)
    requires s != []
    ensures var t := Token(s);
      && (t[0] == BACKSLASH ==> |t| >= 2)
      && forall i :: (if t[0] == BACKSLASH then 2 else 0) <= i < |t| ==> Inert(t[i])
  {
  }

  lemma {:induction false} NestedPlain(p: Text, x: Text, depth: int)
    requires forall i :: 0 <= i < |p| ==> Inert(p[i])
    ensures Nested(p + x, depth, true, false) == |p| + Nested(x, depth, true, false)
  {
    if p == [] {
      assert p + x == x;
    } else {
      assert (p + x)[1..] == p[1..] + x;
      NestedPlain(p[1..], x, depth);
    }
  }

  lemma NestedToken(t: Text, x: Text, depth: int)
    requires t != [] && (t[0] == BACKSLASH ==> |t| >= 2)
    requires forall i :: (if t[0] == BACKSLASH then 2 else 0) <= i < |t| ==> Inert(t[i])
    ensures Nested(t + x, depth, true, false) == |t| + Nested(x, depth, true, false)
  {
    if t[0] == BACKSLASH {
      assert (t + x)[1..][1..] == t[2..] + x;
      NestedPlain(t[2..], x, depth);
    } else {
      NestedPlain(t, x, depth);
    }
  }

  lemma {:induction false} NestedEscape(s: Text, x: Text, depth: int)
    ensures Nested(Escape(s) + x, depth, true, false) == |Escape(s)| + Nested(x, depth, true, false)
  {
    hide Nested, Token, TokenWidth;
    if s == [] {
      assert Escape(s) + x == x;
    } else {
      var rest := s[TokenWidth(s)..];
      assert Escape(s) + x == Token(s) + (Escape(rest) + x);
      TokenShape(s);
      NestedToken(Token(s), Escape(rest) + x, depth);
      NestedEscape(rest, x, depth);
    }
  }

  lemma NestedQuote(s: Text, x: Text, depth: int)
    ensures Nested(Quote(s) + x, depth, false, false) == |Quote(s)| + Nested(x, depth, false, false)
  {
    hide Escape;
    var inner := Escape(s) + ([QUOTE] + x);
    assert (Quote(s) + x)[1..] == inner;
    NestedEscape(s, [QUOTE] + x, depth);
    assert ([QUOTE] + x)[1..] == x;
  }

  /** Neither bracket nor quote. */
  predicate Quiet(c: CodeUnit) {
    c != QUOTE && !Opens(c) && !Closes(c)
  }

  lemma {:induction false} NestedQuiet(p: Text, x: Text, depth: int)
    requires forall i :: 0 <= i < |p| ==> Quiet(p[i])
    ensures Nested(p + x, depth, false, false) == |p| + Nested(x, depth, false, false)
  {
    if p == [] {
      assert p + x == x;
    } else {
      assert (p + x)[1..] == p[1..] + x;
      NestedQuiet(p[1..], x, depth);
    }
  }

  lemma NumberQuiet(d: Text)
    requires NumberText(d)
    ensures forall i :: 0 <= i < |NumText(d, Plain)| ==> NumberChar(NumText(d, Plain)[i]) && Quiet(NumText(d, Plain)[i])
  {
  }

  lemma NestedUnit(c: CodeUnit, x: Text, depth: int)
    ensures Opens(c) ==> Nested([c] + x, depth, false, false) == 1 + Nested(x, depth + 1, false, false)
    ensures Closes(c) && depth != 1 ==> Nested([c] + x, depth, false, false) == 1 + Nested(x, depth - 1, false, false)
    ensures Closes(c) && depth == 1 ==> Nested([c] + x, depth, false, false) == 1
    ensures Quiet(c) ==> Nested([c] + x, depth, false, false) == 1 + Nested(x, depth, false, false)
  {
    assert ([c] + x)[1..] == x;
  }

  /** Inside a bracketed value any printed value is passed over as a whole. */
  lemma {:induction false} NestedValue(v: Json, x: Text, depth: int)
    requires WellFormed(v) && depth >= 1
    ensures Nested(Stringify(v) + x, depth, false, false) == |Stringify(v)| + Nested(x, depth, false, false)
    decreases v, 0
  {
    hide Nested, Quote, NumText, PrintItems, PrintMembers, JoinMembers;
    match v
    case Null => NestedQuiet(Lit("null"), x, depth);
    case Bool(b) => NestedQuiet(if b then Lit("true") else Lit("false"), x, depth);
    case Num(d) =>
      NumberQuiet(d);
      NestedQuiet(NumText(d, Plain), x, depth);
    case Str(s) => NestedQuote(s, x, depth);
    case Arr(es) => NestedInside(OPEN_ARRAY, PrintItems(es, Plain), CLOSE_ARRAY, x, depth) by {
      NestedItems(es, [CLOSE_ARRAY] + x, depth + 1);
    }
    case Obj(fs) => NestedInside(OPEN_OBJECT, Members(fs), CLOSE_OBJECT, x, depth) by {
      NestedMembers(fs, [CLOSE_OBJECT] + x, depth + 1);
    }
  }

  lemma NestedInside(open: CodeUnit, inner: Text, close: CodeUnit, x: Text, depth: int)
    requires Opens(open) && Closes(close)
    requires Nested(inner + ([close] + x), depth + 1, false, false) ==
             |inner| + Nested([close] + x, depth + 1, false, false)
    ensures var t := [open] + inner + [close];
      Nested(t + x, depth, false, false) == if depth == 0 then |t| else |t| + Nested(x, depth, false, false)
  {
    hide Nested;
    assert [open] + inner + [close] + x == [open] + (inner + ([close] + x));
    NestedUnit(open, inner + ([close] + x), depth);
    NestedUnit(close, x, depth + 1);
  }

  lemma {:induction false} NestedItems(es: seq<Json>, x: Text, depth: int)
    requires depth >= 1 && forall i :: 0 <= i < |es| ==> WellFormed(es[i])
    ensures Nested(PrintItems(es, Plain) + x, depth, false, false) ==
            |PrintItems(es, Plain)| + Nested(x, depth, false, false)
    decreases es, 0
  {
    hide Nested, Print, WellFormed;
    if es == [] {
      assert PrintItems(es, Plain) + x == x;
    } else if |es| == 1 {
      NestedValue(es[0], x, depth);
    } else {
      var rest := PrintItems(es[1..], Plain) + x;
      assert PrintItems(es, Plain) + x == Print(es[0], Plain) + ([COMMA] + rest);
      NestedValue(es[0], [COMMA] + rest, depth);
      NestedUnit(COMMA, rest, depth);
      NestedItems(es[1..], x, depth);
    }
  }

  lemma {:induction false} NestedMembers(fs: seq<Field>, x: Text, depth: int)
    requires depth >= 1 && forall i :: 0 <= i < |fs| ==> WellFormed(fs[i].val)
    ensures Nested(Members(fs) + x, depth, false, false) == |Members(fs)| + Nested(x, depth, false, false)
    decreases fs, 0
  {
    hide Nested, Print, WellFormed, Quote, Members;
    if fs == [] {
      NoMembers();
      assert Members(fs) + x == x;
    } else {
      MembersAhead(fs, x);
      var rest := Rest(fs[1..]) + x;
      var val := Stringify(fs[0].val);
      hide Rest;
      NestedQuote(fs[0].key, [COLON] + (val + rest), depth);
      NestedUnit(COLON, val + rest, depth);
      NestedValue(fs[0].val, rest, depth);
      if |fs| > 1 {
        NestedUnit(COMMA, Members(fs[1..]) + x, depth);
        NestedMembers(fs[1..], x, depth);
      }
    }
  }

  // ---- an array of printed elements ----

  predicate Ends(x: Text) {
    x != [] && (x[0] == COMMA || x[0] == CLOSE_ARRAY)
  }

  lemma {:induction false} TailPlain(p: Text, x: Text)
    requires forall i :: 0 <= i < |p| ==> Inert(p[i])
    ensures StringTail(p + x) == |p| + StringTail(x)
  {
    if p == [] {
      assert p + x == x;
    } else {
      assert (p + x)[1..] == p[1..] + x;
      TailPlain(p[1..], x);
    }
  }

  lemma TailToken(t: Text, x: Text)
    requires t != [] && (t[0] == BACKSLASH ==> |t| >= 2)
    requires forall i :: (if t[0] == BACKSLASH then 2 else 0) <= i < |t| ==> Inert(t[i])
    ensures StringTail(t + x) == |t| + StringTail(x)
  {
    if t[0] == BACKSLASH {
      assert (t + x)[2..] == t[2..] + x;
      TailPlain(t[2..], x);
    } else {
      TailPlain(t, x);
    }
  }

  lemma {:induction false} TailEscape(s: Text, x: Text)
    ensures StringTail(Escape(s) + ([QUOTE] + x)) == |Escape(s)| + 1
  {
    hide Token, TokenWidth;
    if s == [] {
      assert Escape(s) + ([QUOTE] + x) == [QUOTE] + x;
    } else {
      var rest := s[TokenWidth(s)..];
      assert Escape(s) + ([QUOTE] + x) == Token(s) + (Escape(rest) + ([QUOTE] + x));
      TokenShape(s);
      TailToken(Token(s), Escape(rest) + ([QUOTE] + x));
      TailEscape(rest, x);
    }
  }

  lemma StringElement(s: Text, x: Text)
    ensures ElementLength(Quote(s) + x) == |Quote(s)|
  {
    hide Escape, StringTail;
    var t := Quote(s) + x;
    assert t[1..] == Escape(s) + ([QUOTE] + x);
    TailEscape(s, x);
  }

  /** Neither separator nor the start of a string or bracketed value. */
  predicate Loose(c: CodeUnit) {
    Quiet(c) && c != COMMA
  }

  lemma {:induction false} ScalarElement(p: Text, x: Text)
    requires (forall i :: 0 <= i < |p| ==> Loose(p[i])) && Ends(x)
    ensures Scalar(p + x) == |p|
  {
    if p == [] {
      assert p + x == x;
    } else {
      assert (p + x)[1..] == p[1..] + x;
      ScalarElement(p[1..], x);
    }
  }

  lemma LooseElement(p: Text, x: Text)
    requires p != [] && (forall i :: 0 <= i < |p| ==> Loose(p[i])) && Ends(x)
    ensures ElementLength(p + x) == |p|
  {
    hide Scalar;
    ScalarElement(p, x);
    assert (p + x)[0] == p[0];
  }

  lemma NumberLoose(d: Text)
    requires NumberText(d)
    ensures var t := NumText(d, Plain); t != [] && forall i :: 0 <= i < |t| ==> Loose(t[i]) && !Blank(t[i])
  {
    var t := NumText(d, Plain);
    assert forall i :: 0 <= i < |t| ==> NumberChar(t[i]);
  }

  /** A printed element is measured as a whole: nested brackets, quoted brackets and escapes included. */
  lemma ElementIsWhole(v: Json, x: Text)
    requires WellFormed(v) && Ends(x)
    ensures ElementLength(Stringify(v) + x) == |Stringify(v)|
  {
    hide Nested, StringTail, Scalar, ElementLength, Quote, NumText, PrintItems, PrintMembers, JoinMembers;
    match v
    case Null => LooseElement(Lit("null"), x);
    case Bool(b) => LooseElement(if b then Lit("true") else Lit("false"), x);
    case Num(d) =>
      NumberLoose(d);
      LooseElement(NumText(d, Plain), x);
    case Str(s) => StringElement(s, x);
    case Arr(es) => BracketElement(OPEN_ARRAY, PrintItems(es, Plain), CLOSE_ARRAY, x) by {
      NestedItems(es, [CLOSE_ARRAY] + x, 1);
    }
    case Obj(fs) => BracketElement(OPEN_OBJECT, Members(fs), CLOSE_OBJECT, x) by {
      NestedMembers(fs, [CLOSE_OBJECT] + x, 1);
    }
  }

  lemma BracketElement(open: CodeUnit, inner: Text, close: CodeUnit, x: Text)
    requires Opens(open) && Closes(close)
    requires Nested(inner + ([close] + x), 1, false, false) == |inner| + Nested([close] + x, 1, false, false)
    ensures ElementLength([open] + inner + [close] + x) == |[open] + inner + [close]|
  {
    hide Nested;
    NestedInside(open, inner, close, x, 0);
  }

  lemma ValueStart(v: Json, x: Text)
    requires WellFormed(v)
    ensures Stringify(v) != [] && Blanks(Stringify(v) + x) == 0 && (Stringify(v) + x)[0] != CLOSE_ARRAY
  {
    var t := Stringify(v);
    ValueHead(v);
    assert (t + x)[0] == t[0];
  }

  lemma ValueHead(v: Json)
    requires WellFormed(v)
    ensures var t := Stringify(v); t != [] && !Blank(t[0]) && t[0] != CLOSE_ARRAY
  {
  }

  /** One span per element, each as long as the element's own text, one separator apart. */
  function ElementsAt(es: seq<Json>, at: nat): seq<Span> {
    if es == [] then []
    else
      var to := at + |Stringify(es[0])|;
      [Span(at, to)] + ElementsAt(es[1..], to + 1)
  }

  /** On a compact array the scan finds exactly its elements. */
  lemma {:induction false} SpansAreElements(es: seq<Json>, post: Text, at: nat)
    requires forall i :: 0 <= i < |es| ==> WellFormed(es[i])
    ensures Spans(PrintItems(es, Plain) + ([CLOSE_ARRAY] + post), at) == ElementsAt(es, at)
    decreases |es|
  {
    hide Print, ElementLength, WellFormed, Spans, Further, Blanks, PrintItems;
    ItemsText(es, post);
    if es == [] {
      ClosedSpans(post, at);
    } else {
      var t := Stringify(es[0]);
      var x := ItemsRest(es, post);
      ElementIsWhole(es[0], x);
      ValueStart(es[0], x);
      FirstSpan(t, x, at);
      if |es| > 1 {
        SpansAreElements(es[1..], post, at + |t| + 1);
      }
    }
  }

  /** What follows the first of some printed elements, up to the end of the text. */
  function ItemsRest(es: seq<Json>, post: Text): (x: Text)
    requires es != []
    ensures Ends(x) && (x[0] == COMMA <==> |es| > 1)
    ensures |es| > 1 ==> x[1..] == PrintItems(es[1..], Plain) + ([CLOSE_ARRAY] + post)
  {
    if |es| == 1 then [CLOSE_ARRAY] + post else [COMMA] + (PrintItems(es[1..], Plain) + ([CLOSE_ARRAY] + post))
  }

  lemma ItemsText(es: seq<Json>, post: Text)
    ensures PrintItems(es, Plain) + ([CLOSE_ARRAY] + post) ==
      if es == [] then [CLOSE_ARRAY] + post else Stringify(es[0]) + ItemsRest(es, post)
  {
    hide Print;
  }

  lemma ClosedSpans(post: Text, at: nat)
    ensures Spans([CLOSE_ARRAY] + post, at) == []
  {
  }

  lemma FirstSpan(t: Text, x: Text, at: nat)
    requires t != [] && Ends(x) && Blanks(t + x) == 0 && (t + x)[0] != CLOSE_ARRAY && ElementLength(t + x) == |t|
    ensures Spans(t + x, at) == [Span(at, at + |t|)] + (if x[0] == COMMA then Spans(x[1..], at + |t| + 1) else [])
  {
    hide Blanks, ElementLength, Further;
    assert (t + x)[0..] == t + x && (t + x)[|t|..] == x;
    FurtherIs(x, at + |t|);
  }

  lemma FurtherIs(x: Text, at: nat)
    requires x != []
    ensures Further(x, at) == if x[0] == COMMA then Spans(x[1..], at + 1) else []
  {
    hide Spans;
  }

  /** Each of those spans cuts out the text of its element. */
  lemma {:induction false} ElementsCutOut(es: seq<Json>, pre: Text, post: Text, k: nat)
    requires k < |es|
    ensures |ElementsAt(es, |pre|)| == |es|
    ensures var text, span := pre + PrintItems(es, Plain) + post, ElementsAt(es, |pre|)[k];
      span.from <= span.to <= |text| && text[span.from..span.to] == Stringify(es[k])
    decreases |es|
  {
    hide Print;
    var t := Stringify(es[0]);
    var text := pre + PrintItems(es, Plain) + post;
    if |es| == 1 {
      assert es[1..] == [];
      assert text[|pre|..|pre| + |t|] == t;
    } else {
      var items := PrintItems(es[1..], Plain);
      var more := pre + t + [COMMA];
      assert text == more + items + post;
      ElementsCutOut(es[1..], more, post, if k == 0 then 0 else k - 1);
      assert text[|pre|..|pre| + |t|] == t;
    }
  }

  /**
   * elementSpans on the compact serialization of any array, wherever it stands in a text: exactly one span per
   * element, and each slices that element's own text.
   */
  lemma SpansOfArray(es: seq<Json>, pre: Text, post: Text)
    requires forall i :: 0 <= i < |es| ==> WellFormed(es[i])
    ensures var text := pre + Stringify(Arr(es)) + post;
      var spans := Spans(text[|pre| + 1..], |pre| + 1);
      && |spans| == |es|
      && forall k :: 0 <= k < |es| ==>
           spans[k].from <= spans[k].to <= |text| && text[spans[k].from..spans[k].to] == Stringify(es[k])
  {
    hide PrintItems, Spans, WellFormed, ElementsAt;
    var text := pre + Stringify(Arr(es)) + post;
    var head := pre + [OPEN_ARRAY];
    assert text == head + PrintItems(es, Plain) + ([CLOSE_ARRAY] + post);
    assert text[|head|..] == PrintItems(es, Plain) + ([CLOSE_ARRAY] + post);
    SpansAreElements(es, post, |head|);
    forall k | 0 <= k < |es|
      ensures var spans := ElementsAt(es, |head|);
        |spans| == |es| && spans[k].from <= spans[k].to <= |text| && text[spans[k].from..spans[k].to] == Stringify(es[k])
    {
      ElementsCutOut(es, head, [CLOSE_ARRAY] + post, k);
    }
    SameLength(es, |head|);
  }

  lemma {:induction false} SameLength(es: seq<Json>, at: nat)
    ensures |ElementsAt(es, at)| == |es|
    decreases |es|
  {
    if es != [] {
      SameLength(es[1..], at + |Stringify(es[0])| + 1);
    }
  }
}
