/** Which lists of a serialized body the pattern for a message key matches. */
module WireNamesakes {
  import opened Texts
  import opened Seqs
  import opened Json
  import opened Printing
  import opened PrintedMembers
  import opened JcsIdentity
  import opened Names
  import opened WireSpans
  import opened WireDiff

  // ---- the lists that look like the key's ----

  /** The member's key is the name, or ends with a quote and the name: in print both end in the quoted name. */
  predicate NamedLike(k: Text, key: Text) {
    k == key || EndsWith(k, [QUOTE] + key)
  }

  function OwnList(f: Field, key: Text): seq<seq<Json>> {
    if f.val.Arr? && NamedLike(f.key, key) then [f.val.elems] else []
  }

  /** All lists inside the value that stand under such a key, at any depth. */
  function Lists(v: Json, key: Text): seq<seq<Json>>
    decreases v
  {
    match v
    case Arr(es) => ItemLists(es, key)
    case Obj(fs) => MemberLists(fs, key)
    case _ => []
  }

  function ItemLists(es: seq<Json>, key: Text): seq<seq<Json>>
    decreases es
  {
    if es == [] then [] else Lists(es[0], key) + ItemLists(es[1..], key)
  }

  function MemberLists(fs: seq<Field>, key: Text): seq<seq<Json>>
    decreases fs
  {
    if fs == [] then [] else OwnList(fs[0], key) + Lists(fs[0].val, key) + MemberLists(fs[1..], key)
  }

  // ---- quotes inside a printed string ----

  lemma TokenQuote(t: Text, j: nat)
    requires t != [] && j < |Token(t)| && Token(t)[j] == QUOTE
    ensures t[0] == QUOTE && TokenWidth(t) == 1 && Token(t) == [BACKSLASH, QUOTE] && j == 1
  {
  }

  /** Every quote of an escaped string has its backslash. */
  lemma {:induction false} EscapedQuote(t: Text, j: nat)
    requires j < |Escape(t)| && Escape(t)[j] == QUOTE
    ensures j > 0 && Escape(t)[j - 1] == BACKSLASH
  {
    var n := |Token(t)|;
    if j < n {
      TokenQuote(t, j);
    } else {
      hide Token, TokenWidth;
      EscapedQuote(t[TokenWidth(t)..], j - n);
    }
  }

  lemma EscapeWhole(t: Text, key: Text)
    requires Letters(key) && Escape(t) == key
    ensures t == key
  {
    hide Escape;
    EscapeLetters(key);
    EscapeUnique(t, key, [], []);
  }

  lemma SameFront(a: Text, b: Text, c: Text, d: Text)
    requires a + b == c + d && |a| <= |c|
    ensures b == c[|a|..] + d
  {
    assert c + d == c[..|a|] + (c[|a|..] + d);
    SplitConcat(a, b, c[..|a|], c[|a|..] + d);
  }

  lemma Reaches(a: Text, b: Text, c: Text, q: CodeUnit, d: Text)
    requires a + b == c + ([q] + d) && |a| > |c|
    ensures a[|c|] == q && (|a| == |c| + 1 ==> b == d)
  {
    assert (a + b)[|c|] == a[|c|] && (c + ([q] + d))[|c|] == q;
    if |a| == |c| + 1 {
      Associate(c, [q], d);
      SplitConcat(a, b, c + [q], d);
    }
  }

  /** An escaped string that ends in a quote and the name stands for a string that does. */
  lemma {:induction false} EscapeTail(t: Text, a: Text, key: Text)
    requires Letters(key) && Escape(t) == a + ([QUOTE] + key)
    ensures EndsWith(t, [QUOTE] + key)
  {
    var tok, rest := Token(t), t[TokenWidth(t)..];
    assert Escape(t) == tok + Escape(rest);
    if |tok| <= |a| {
      hide Token, TokenWidth, Escape;
      SameFront(tok, Escape(rest), a, [QUOTE] + key);
      EscapeTail(rest, a[|tok|..], key);
      TailOfSuffix(t, |t| - |rest|, [QUOTE] + key);
    } else {
      Reaches(tok, Escape(rest), a, QUOTE, key);
      TokenQuote(t, |a|);
      EscapeWhole(rest, key);
      assert t == [QUOTE] + key;
    }
  }

  lemma TailOfSuffix(t: Text, w: nat, p: Text)
    requires w <= |t| && EndsWith(t[w..], p)
    ensures EndsWith(t, p)
  {
  }

  /** And the other way round. */
  lemma {:induction false} EscapeOfTail(t: Text, key: Text) returns (a: Text)
    requires Letters(key) && EndsWith(t, [QUOTE] + key)
    ensures Escape(t) == a + [BACKSLASH, QUOTE] + key
  {
    if |t| == 1 + |key| {
      a := [];
      assert t[1..] == key;
      EscapeLetters(key);
    } else {
      var w := TokenWidth(t);
      assert t[|t| - 1 - |key|..][0] == QUOTE;
      assert |t| - w >= 1 + |key|;
      assert t[w..][|t| - w - 1 - |key|..] == t[|t| - 1 - |key|..];
      a := EscapeOfTail(t[w..], key);
      a := Token(t) + a;
    }
  }

  // ---- pieces of a text ----

  predicate Piece(text: Text, p: Text, m: Text, x: Text) {
    text == p + m + x
  }

  lemma PieceAt(text: Text, p: Text, m: Text, x: Text, j: nat)
    requires Piece(text, p, m, x)
    ensures |text| == |p| + |m| + |x|
    ensures j < |m| ==> text[|p| + j] == m[j]
    ensures j < |x| ==> text[|p| + |m| + j] == x[j]
  {
  }

  lemma PieceSplit(text: Text, p: Text, a: Text, b: Text, x: Text)
    requires Piece(text, p, a + b, x)
    ensures Piece(text, p, a, b + x) && Piece(text, p + a, b, x)
  {
  }

  /** What may come after a printed value. */
  predicate EndsValue(x: Text) {
    x != [] && (x[0] == COMMA || x[0] == CLOSE_ARRAY || x[0] == CLOSE_OBJECT)
  }

  // ---- where a match can start ----

  /** A quote inside the string has its backslash in front. */
  lemma InnerQuote(text: Text, p: Text, t: Text, x: Text, k: nat)
    requires Piece(text, p, Quote(t), x) && |p| < k < |p| + |Quote(t)| - 1 && text[k] == QUOTE
    ensures text[k - 1] == BACKSLASH
  {
    hide Escape;
    var q := Quote(t);
    PieceAt(text, p, q, x, k - |p|);
    assert q[k - |p|] == Escape(t)[k - |p| - 1];
    EscapedQuote(t, k - |p| - 1);
    PieceAt(text, p, q, x, k - |p| - 1);
    assert q[k - |p| - 1] == Escape(t)[k - |p| - 2];
  }

  /** A match inside a printed string ends at its closing quote. */
  lemma MatchInQuote(text: Text, p: Text, t: Text, x: Text, i: nat, key: Text)
    requires Letters(key) && Piece(text, p, Quote(t), x) && x != [] && !IsLower(x[0])
    requires |p| <= i < |p| + |Quote(t)| && MatchAt(text, i, key).Some?
    ensures NamedLike(t, key) && i + 2 + |key| == |p| + |Quote(t)|
  {
    hide SkipSpace, Escape;
    var q, c, k := Quote(t), |p| + |Quote(t)| - 1, i + 1 + |key|;
    PieceAt(text, p, q, x, |q| - 1);
    PieceAt(text, p, q, x, 0);
    assert text[i + 1..k] == key && text[k] == QUOTE && text[c] == QUOTE;
    forall j | i < j < k ensures IsLower(text[j]) {
      assert text[j] == key[j - i - 1];
    }
    assert i != c && k <= c;
    if k < c {
      InnerQuote(text, p, t, x, k);
    } else {
      EndsNamed(text, p, t, x, i, key);
    }
  }

  lemma EndsNamed(text: Text, p: Text, t: Text, x: Text, i: nat, key: Text)
    requires Letters(key) && Piece(text, p, Quote(t), x) && |p| <= i && i + 2 + |key| == |p| + |Quote(t)|
    requires text[i] == QUOTE && text[i + 1..i + 1 + |key|] == key
    ensures NamedLike(t, key)
  {
    hide Escape;
    var e := Escape(t);
    assert text[|p| + 1..|p| + 1 + |e|] == e;
    if i == |p| {
      EscapeWhole(t, key);
    } else {
      var a := text[|p| + 1..i];
      assert e == a + ([QUOTE] + key);
      EscapeTail(t, a, key);
    }
  }

  lemma StringNotMatched(text: Text, p: Text, t: Text, x: Text, i: nat, key: Text)
    requires Letters(key) && Piece(text, p, Quote(t), x) && EndsValue(x)
    requires |p| <= i < |p| + |Quote(t)|
    ensures MatchAt(text, i, key).None?
  {
    if MatchAt(text, i, key).Some? {
      MatchInQuote(text, p, t, x, i, key);
      PieceAt(text, p, Quote(t), x, 0);
      SkipSpaceStays(text, |p| + |Quote(t)|);
    }
  }

  lemma PlainHead(v: Json)
    requires WellFormed(v)
    ensures Stringify(v) != [] && !Space(Stringify(v)[0]) && (Stringify(v)[0] == OPEN_ARRAY <==> v.Arr?)
  {
    hide PrintItems, JoinMembers, Escape;
  }

  /** A match that starts in a member's key is for the member's own list. */
  lemma KeyMatched(text: Text, p: Text, f: Field, x: Text, i: nat, key: Text)
    requires Letters(key) && WellFormed(f.val)
    requires Piece(text, p, Quote(f.key), [COLON] + Stringify(f.val) + x)
    requires |p| <= i < |p| + |Quote(f.key)| && MatchAt(text, i, key).Some?
    ensures f.val.Arr? && NamedLike(f.key, key) && MatchAt(text, i, key) == Some(|p| + |Quote(f.key)| + 1)
  {
    hide Quote, NamedLike;
    var q, after := Quote(f.key), [COLON] + Stringify(f.val) + x;
    PlainHead(f.val);
    hide Stringify;
    MatchInQuote(text, p, f.key, after, i, key);
    PieceAt(text, p, q, after, 0);
    PieceAt(text, p, q, after, 1);
    SkipSpaceStays(text, |p| + |q|);
    SkipSpaceStays(text, |p| + |q| + 1);
  }

  // ---- every match shows a list that looks like the key's ----

  ghost predicate Sees(text: Text, s: nat, lists: seq<seq<Json>>) {
    exists l :: l in lists && ShowsAt(text, s, l)
  }

  lemma SeesMore(text: Text, s: nat, a: seq<seq<Json>>, b: seq<seq<Json>>)
    ensures Sees(text, s, a) || Sees(text, s, b) ==> Sees(text, s, a + b)
  {
    hide ShowsAt;
    if Sees(text, s, a) {
      var l :| l in a && ShowsAt(text, s, l);
      assert l in a + b;
    } else if Sees(text, s, b) {
      var l :| l in b && ShowsAt(text, s, l);
      assert l in a + b;
    }
  }

  lemma ScalarHasNoQuote(v: Json, j: nat)
    requires WellFormed(v) && !v.Str? && !v.Arr? && !v.Obj? && j < |Stringify(v)|
    ensures Stringify(v)[j] != QUOTE
  {
  }

  lemma NeedsQuote(text: Text, i: nat, key: Text)
    requires i < |text| && text[i] != QUOTE
    ensures MatchAt(text, i, key).None?
  {
  }

  lemma {:induction false} ValueMatches(text: Text, p: Text, v: Json, x: Text, i: nat, s: nat, key: Text)
    requires WellFormed(v) && Letters(key) && Piece(text, p, Stringify(v), x) && EndsValue(x)
    requires |p| <= i < |p| + |Stringify(v)| && MatchAt(text, i, key) == Some(s)
    ensures Sees(text, s, Lists(v, key))
    decreases v, 1
  {
    hide MatchAt, Letters, Sees, PrintItems, JoinMembers, PrintMembers, Quote;
    PieceAt(text, p, Stringify(v), x, i - |p|);
    match v
    case Str(t) => StringNotMatched(text, p, t, x, i, key);
    case Arr(es) =>
      ArrayMatches(text, p, es, x, i, s, key);
    case Obj(fs) =>
      ObjectMatches(text, p, fs, x, i, s, key);
    case _ =>
      ScalarHasNoQuote(v, i - |p|);
      NeedsQuote(text, i, key);
  }

  lemma {:induction false} ArrayMatches(text: Text, p: Text, es: seq<Json>, x: Text, i: nat, s: nat, key: Text)
    requires (forall k :: 0 <= k < |es| ==> WellFormed(es[k])) && Letters(key)
    requires Piece(text, p, Stringify(Arr(es)), x)
    requires |p| <= i < |p| + |Stringify(Arr(es))| && MatchAt(text, i, key) == Some(s)
    ensures Sees(text, s, ItemLists(es, key))
    decreases es, 2
  {
    hide MatchAt, Letters, Sees, PrintItems, ItemLists;
    var items := PrintItems(es, Plain);
    assert Stringify(Arr(es)) == [OPEN_ARRAY] + items + [CLOSE_ARRAY];
    PieceAt(text, p, Stringify(Arr(es)), x, i - |p|);
    PieceSplit(text, p, [OPEN_ARRAY] + items, [CLOSE_ARRAY], x);
    PieceSplit(text, p, [OPEN_ARRAY], items, [CLOSE_ARRAY] + x);
    if i == |p| || i == |p| + 1 + |items| {
      NeedsQuote(text, i, key);
    } else {
      hide Piece;
      ItemsMatches(text, p + [OPEN_ARRAY], es, [CLOSE_ARRAY] + x, i, s, key);
    }
  }

  lemma {:induction false} ItemsMatches(text: Text, p: Text, es: seq<Json>, x: Text, i: nat, s: nat, key: Text)
    requires (forall k :: 0 <= k < |es| ==> WellFormed(es[k])) && Letters(key)
    requires Piece(text, p, PrintItems(es, Plain), x) && EndsValue(x)
    requires |p| <= i < |p| + |PrintItems(es, Plain)| && MatchAt(text, i, key) == Some(s)
    ensures Sees(text, s, ItemLists(es, key))
    decreases es, 1
  {
    hide MatchAt, Letters, Sees, Piece, Lists, Print;
    SeesMore(text, s, Lists(es[0], key), ItemLists(es[1..], key));
    var v := Stringify(es[0]);
    if |es| == 1 {
      ValueMatches(text, p, es[0], x, i, s, key);
    } else {
      var rest := PrintItems(es[1..], Plain);
      Associate(v, [COMMA], rest);
      PieceSplit(text, p, v, [COMMA] + rest, x);
      PieceSplit(text, p + v, [COMMA], rest, x);
      if i < |p| + |v| {
        ValueMatches(text, p, es[0], [COMMA] + rest + x, i, s, key);
      } else if i == |p| + |v| {
        PieceAt(text, p + v, [COMMA], rest + x, 0);
        NeedsQuote(text, i, key);
      } else {
        ItemsMatches(text, p + v + [COMMA], es[1..], x, i, s, key);
      }
    }
  }

  lemma {:induction false} ObjectMatches(text: Text, p: Text, fs: seq<Field>, x: Text, i: nat, s: nat, key: Text)
    requires (forall k :: 0 <= k < |fs| ==> WellFormed(fs[k].val)) && Letters(key)
    requires Piece(text, p, Stringify(Obj(fs)), x)
    requires |p| <= i < |p| + |Stringify(Obj(fs))| && MatchAt(text, i, key) == Some(s)
    ensures Sees(text, s, MemberLists(fs, key))
    decreases fs, 2
  {
    hide MatchAt, Letters, Sees, Members, MemberLists;
    var ms := Members(fs);
    ObjectText(fs);
    hide Stringify;
    PieceAt(text, p, Stringify(Obj(fs)), x, i - |p|);
    PieceSplit(text, p, [OPEN_OBJECT] + ms, [CLOSE_OBJECT], x);
    PieceSplit(text, p, [OPEN_OBJECT], ms, [CLOSE_OBJECT] + x);
    if i == |p| || i == |p| + 1 + |ms| {
      NeedsQuote(text, i, key);
    } else {
      hide Piece;
      MembersMatches(text, p + [OPEN_OBJECT], fs, [CLOSE_OBJECT] + x, i, s, key);
    }
  }

  function MemberText(f: Field): Text {
    Quote(f.key) + ([COLON] + Stringify(f.val))
  }

  /** The first member and what follows. */
  lemma MembersText(fs: seq<Field>)
    requires fs != []
    ensures Members(fs) == MemberText(fs[0]) + Rest(fs[1..])
  {
    hide Quote, Print, Members, Rest;
    MembersStep(fs);
    Associate(Quote(fs[0].key), [COLON], Stringify(fs[0].val));
  }

  lemma {:induction false} MembersMatches(text: Text, p: Text, fs: seq<Field>, x: Text, i: nat, s: nat, key: Text)
    requires (forall k :: 0 <= k < |fs| ==> WellFormed(fs[k].val)) && Letters(key)
    requires Piece(text, p, Members(fs), x) && EndsValue(x)
    requires |p| <= i < |p| + |Members(fs)| && MatchAt(text, i, key) == Some(s)
    ensures Sees(text, s, MemberLists(fs, key))
    decreases fs, 1
  {
    NoMembers();
    hide MatchAt, Letters, Sees, Piece, Lists, Members, MemberText, OwnList;
    var m, rest := MemberText(fs[0]), Rest(fs[1..]);
    MembersText(fs);
    PieceSplit(text, p, m, rest, x);
    SeesMore(text, s, OwnList(fs[0], key) + Lists(fs[0].val, key), MemberLists(fs[1..], key));
    RestEnds(fs[1..], x);
    if i < |p| + |m| {
      MemberMatches(text, p, fs[0], rest + x, i, s, key);
    } else {
      PieceSplit(text, p + m, [COMMA], Members(fs[1..]), x);
      if i == |p| + |m| {
        PieceAt(text, p + m, [COMMA], Members(fs[1..]) + x, 0);
        NeedsQuote(text, i, key);
      } else {
        MembersMatches(text, p + m + [COMMA], fs[1..], x, i, s, key);
      }
    }
  }

  lemma RestEnds(fs: seq<Field>, x: Text)
    requires EndsValue(x)
    ensures EndsValue(Rest(fs) + x)
  {
    hide Members;
  }

  lemma {:induction false} MemberMatches(text: Text, p: Text, f: Field, x: Text, i: nat, s: nat, key: Text)
    requires WellFormed(f.val) && Letters(key) && Piece(text, p, MemberText(f), x) && EndsValue(x)
    requires |p| <= i < |p| + |MemberText(f)| && MatchAt(text, i, key) == Some(s)
    ensures Sees(text, s, OwnList(f, key) + Lists(f.val, key))
    decreases f, 1
  {
    hide MatchAt, Letters, Sees, Piece, Lists, Quote, Print, NamedLike;
    var q, v := Quote(f.key), Stringify(f.val);
    PieceSplit(text, p, q, [COLON] + v, x);
    PieceSplit(text, p + q, [COLON], v, x);
    SeesMore(text, s, OwnList(f, key), Lists(f.val, key));
    if i < |p| + |q| {
      KeyMatched(text, p, f, x, i, key);
      OwnShows(text, p + q + [COLON], f, x, key);
    } else if i == |p| + |q| {
      PieceAt(text, p + q, [COLON], v + x, 0);
      NeedsQuote(text, i, key);
    } else {
      ValueMatches(text, p + q + [COLON], f.val, x, i, s, key);
    }
  }

  lemma OwnShows(text: Text, p: Text, f: Field, x: Text, key: Text)
    requires WellFormed(f.val) && f.val.Arr? && NamedLike(f.key, key) && Piece(text, p, Stringify(f.val), x)
    ensures ShowsAt(text, |p|, f.val.elems) && Sees(text, |p|, OwnList(f, key))
  {
    hide NamedLike, ShowsAt, Print;
    ArrayShows(text, p, f.val, x);
    assert f.val.elems in OwnList(f, key);
  }

  lemma ArrayShows(text: Text, p: Text, v: Json, x: Text)
    requires WellFormed(v) && v.Arr? && Piece(text, p, Stringify(v), x)
    ensures ShowsAt(text, |p|, v.elems)
  {
    hide ShowsAt, Print;
    assert v == Arr(v.elems);
    SpansInside(text, v.elems, p, x);
  }

  // ---- every such list is matched ----

  /** The list is matched, with its bracket in the range. */
  ghost predicate Matched(text: Text, from: nat, to: nat, l: seq<Json>, key: Text) {
    exists i, s :: MatchAt(text, i, key) == Some(s) && from <= s < to && ShowsAt(text, s, l)
  }

  lemma Widen(text: Text, from: nat, to: nat, from2: nat, to2: nat, l: seq<Json>, key: Text)
    requires Matched(text, from, to, l, key) && from2 <= from && to <= to2
    ensures Matched(text, from2, to2, l, key)
  {
    hide MatchAt, ShowsAt;
    var i, s :| MatchAt(text, i, key) == Some(s) && from <= s < to && ShowsAt(text, s, l);
    assert from2 <= s < to2;
  }

  lemma QuoteOfTail(k: Text, key: Text) returns (a: Text)
    requires Letters(key) && EndsWith(k, [QUOTE] + key)
    ensures Quote(k) == a + Quote(key)
  {
    hide Escape;
    var e := EscapeOfTail(k, key);
    EscapeLetters(key);
    a := [QUOTE] + e + [BACKSLASH];
    assert e + [BACKSLASH, QUOTE] + key == e + [BACKSLASH] + ([QUOTE] + key);
  }

  lemma NamedMatches(text: Text, p: Text, k: Text, post: Text, key: Text) returns (i: nat)
    requires Letters(key) && NamedLike(k, key) && Piece(text, p, Quote(k), [COLON] + ([OPEN_ARRAY] + post))
    ensures MatchAt(text, i, key) == Some(|p| + |Quote(k)| + 1)
  {
    hide MatchAt, Quote;
    QuotedLength(key);
    if k == key {
      i := |p|;
      Associate(p + Quote(k), [COLON], [OPEN_ARRAY] + post);
      ArrayMemberMatches(key, p, post);
    } else {
      var a := QuoteOfTail(k, key);
      i := |p + a|;
      PieceSplit(text, p, a, Quote(key), [COLON] + ([OPEN_ARRAY] + post));
      Associate(p + a + Quote(key), [COLON], [OPEN_ARRAY] + post);
      ArrayMemberMatches(key, p + a, post);
    }
  }

  lemma ArrayOpens(es: seq<Json>)
    ensures Stringify(Arr(es)) == [OPEN_ARRAY] + (PrintItems(es, Plain) + [CLOSE_ARRAY])
  {
    Associate([OPEN_ARRAY], PrintItems(es, Plain), [CLOSE_ARRAY]);
  }

  lemma OpensThen(more: Text, x: Text)
    ensures [COLON] + ([OPEN_ARRAY] + more) + x == [COLON] + ([OPEN_ARRAY] + (more + x))
  {
  }

  lemma MemberIsMatched(text: Text, p: Text, k: Text, more: Text, x: Text, key: Text) returns (i: nat)
    requires Letters(key) && NamedLike(k, key)
    requires Piece(text, p, Quote(k) + ([COLON] + ([OPEN_ARRAY] + more)), x)
    ensures MatchAt(text, i, key) == Some(|p| + |Quote(k)| + 1)
  {
    hide Quote, NamedLike, MatchAt, Piece;
    PieceSplit(text, p, Quote(k), [COLON] + ([OPEN_ARRAY] + more), x);
    OpensThen(more, x);
    i := NamedMatches(text, p, k, more + x, key);
  }

  lemma OwnListShows(text: Text, p: Text, f: Field, x: Text)
    requires WellFormed(f.val) && f.val.Arr? && Piece(text, p, MemberText(f), x)
    ensures ShowsAt(text, |p| + |Quote(f.key)| + 1, f.val.elems)
  {
    hide Quote, Print, Piece, ShowsAt;
    var q, v := Quote(f.key), Stringify(f.val);
    PieceSplit(text, p, q, [COLON] + v, x);
    PieceSplit(text, p + q, [COLON], v, x);
    ArrayShows(text, p + q + [COLON], f.val, x);
  }

  lemma ArrayMemberText(f: Field)
    requires f.val.Arr?
    ensures MemberText(f) ==
            Quote(f.key) + ([COLON] + ([OPEN_ARRAY] + (PrintItems(f.val.elems, Plain) + [CLOSE_ARRAY])))
    ensures |MemberText(f)| > |Quote(f.key)| + 1
  {
    hide Quote, PrintItems;
    ArrayOpens(f.val.elems);
  }

  lemma OwnListMatched(text: Text, p: Text, f: Field, x: Text, key: Text)
    requires WellFormed(f.val) && Letters(key) && f.val.Arr? && NamedLike(f.key, key)
    requires Piece(text, p, MemberText(f), x)
    ensures Matched(text, |p|, |p| + |MemberText(f)|, f.val.elems, key)
  {
    hide Quote, NamedLike, PrintItems, MatchAt, ShowsAt, Piece, MemberText, Letters;
    ArrayMemberText(f);
    var i := MemberIsMatched(text, p, f.key, PrintItems(f.val.elems, Plain) + [CLOSE_ARRAY], x, key);
    OwnListShows(text, p, f, x);
  }

  lemma {:induction false} ValueLists(text: Text, p: Text, v: Json, x: Text, l: seq<Json>, key: Text)
    requires WellFormed(v) && Letters(key) && Piece(text, p, Stringify(v), x) && l in Lists(v, key)
    ensures Matched(text, |p|, |p| + |Stringify(v)|, l, key)
    decreases v, 1
  {
    hide Letters, Matched, Piece, PrintItems, JoinMembers, PrintMembers, Members, MemberLists, ItemLists;
    match v
    case Arr(es) =>
      var items := PrintItems(es, Plain);
      PieceSplit(text, p, [OPEN_ARRAY] + items, [CLOSE_ARRAY], x);
      PieceSplit(text, p, [OPEN_ARRAY], items, [CLOSE_ARRAY] + x);
      ItemsLists(text, p + [OPEN_ARRAY], es, [CLOSE_ARRAY] + x, l, key);
      Widen(text, |p| + 1, |p| + 1 + |items|, |p|, |p| + |Stringify(v)|, l, key);
    case Obj(fs) =>
      var ms := Members(fs);
      ObjectText(fs);
      PieceSplit(text, p, [OPEN_OBJECT] + ms, [CLOSE_OBJECT], x);
      PieceSplit(text, p, [OPEN_OBJECT], ms, [CLOSE_OBJECT] + x);
      MembersLists(text, p + [OPEN_OBJECT], fs, [CLOSE_OBJECT] + x, l, key);
      Widen(text, |p| + 1, |p| + 1 + |ms|, |p|, |p| + |Stringify(v)|, l, key);
    case _ =>
  }

  lemma {:induction false} ItemsLists(text: Text, p: Text, es: seq<Json>, x: Text, l: seq<Json>, key: Text)
    requires (forall k :: 0 <= k < |es| ==> WellFormed(es[k])) && Letters(key)
    requires Piece(text, p, PrintItems(es, Plain), x) && l in ItemLists(es, key)
    ensures Matched(text, |p|, |p| + |PrintItems(es, Plain)|, l, key)
    decreases es, 0
  {
    hide Letters, Matched, Piece, Lists, Print;
    var v := Stringify(es[0]);
    if |es| == 1 {
      NoItems(key);
      ValueLists(text, p, es[0], x, l, key);
    } else {
      var rest := PrintItems(es[1..], Plain);
      Associate(v, [COMMA], rest);
      PieceSplit(text, p, v, [COMMA] + rest, x);
      PieceSplit(text, p + v, [COMMA], rest, x);
      var end := |p| + |PrintItems(es, Plain)|;
      if l in Lists(es[0], key) {
        ValueLists(text, p, es[0], [COMMA] + rest + x, l, key);
        Widen(text, |p|, |p| + |v|, |p|, end, l, key);
      } else {
        ItemsLists(text, p + v + [COMMA], es[1..], x, l, key);
        Widen(text, |p| + |v| + 1, end, |p|, end, l, key);
      }
    }
  }

  lemma NoItems(key: Text)
    ensures ItemLists([], key) == []
  {
  }

  lemma {:induction false} MemberListsMatched(text: Text, p: Text, f: Field, x: Text, l: seq<Json>, key: Text)
    requires WellFormed(f.val) && Letters(key) && Piece(text, p, MemberText(f), x)
    requires l in OwnList(f, key) + Lists(f.val, key)
    ensures Matched(text, |p|, |p| + |MemberText(f)|, l, key)
    decreases f, 1
  {
    hide Letters, Matched, Piece, Lists, Quote, Print, NamedLike;
    if l in OwnList(f, key) {
      OwnListMatched(text, p, f, x, key);
    } else {
      var q, v := Quote(f.key), Stringify(f.val);
      PieceSplit(text, p, q, [COLON] + v, x);
      PieceSplit(text, p + q, [COLON], v, x);
      ValueLists(text, p + q + [COLON], f.val, x, l, key);
      Widen(text, |p| + |q| + 1, |p| + |MemberText(f)|, |p|, |p| + |MemberText(f)|, l, key);
    }
  }

  lemma {:induction false} MembersLists(text: Text, p: Text, fs: seq<Field>, x: Text, l: seq<Json>, key: Text)
    requires (forall k :: 0 <= k < |fs| ==> WellFormed(fs[k].val)) && Letters(key)
    requires Piece(text, p, Members(fs), x) && l in MemberLists(fs, key)
    ensures Matched(text, |p|, |p| + |Members(fs)|, l, key)
    decreases fs, 0
  {
    NoMoreLists(key);
    hide Letters, Matched, Piece, Lists, Members, MemberText, OwnList;
    var m, rest := MemberText(fs[0]), Rest(fs[1..]);
    MembersText(fs);
    PieceSplit(text, p, m, rest, x);
    var end := |p| + |Members(fs)|;
    if l in OwnList(fs[0], key) + Lists(fs[0].val, key) {
      MemberListsMatched(text, p, fs[0], rest + x, l, key);
      Widen(text, |p|, |p| + |m|, |p|, end, l, key);
    } else {
      PieceSplit(text, p + m, [COMMA], Members(fs[1..]), x);
      MembersLists(text, p + m + [COMMA], fs[1..], x, l, key);
      Widen(text, |p| + |m| + 1, end, |p|, end, l, key);
    }
  }

  lemma NoMoreLists(key: Text)
    ensures MemberLists([], key) == []
  {
  }

  // ---- in front of the meant list ----

  /** The members in front of the k-th begin with the first and its comma. */
  lemma LeadText(fs: seq<Field>, k: nat)
    requires 0 < k < |fs|
    ensures Lead(fs, k) == MemberText(fs[0]) + ([COMMA] + Lead(fs[1..], k - 1))
  {
    hide Quote, Print, Lead;
    LeadLater(fs, k);
    Associate(Quote(fs[0].key), [COLON], Stringify(fs[0].val));
    Associate(MemberText(fs[0]), [COMMA], Lead(fs[1..], k - 1));
  }

  lemma FrontLists(fs: seq<Field>, k: nat, key: Text)
    requires 0 < k <= |fs|
    ensures MemberLists(fs[..k], key) ==
            OwnList(fs[0], key) + Lists(fs[0].val, key) + MemberLists(fs[1..][..k - 1], key)
  {
    hide OwnList, Lists;
    assert fs[..k][1..] == fs[1..][..k - 1];
  }

  lemma NoFrontLists(fs: seq<Field>, key: Text)
    ensures MemberLists(fs[..0], key) == []
  {
    NoMoreLists(key);
    assert fs[..0] == [];
  }

  lemma {:induction false} LeadMatches(text: Text, p: Text, fs: seq<Field>, k: nat, x: Text, i: nat, s: nat, key: Text)
    requires k < |fs| && (forall j :: 0 <= j < |fs| ==> WellFormed(fs[j].val)) && Letters(key)
    requires Piece(text, p, Lead(fs, k), x)
    requires |p| <= i < |p| + |Lead(fs, k)| && MatchAt(text, i, key) == Some(s)
    ensures Sees(text, s, MemberLists(fs[..k], key))
    decreases k
  {
    hide MatchAt, Letters, Sees, Piece, Lists, MemberText, OwnList, MemberLists;
    if k > 0 {
      var m, rest := MemberText(fs[0]), Lead(fs[1..], k - 1);
      LeadText(fs, k);
      FrontLists(fs, k, key);
      hide Lead;
      PieceSplit(text, p, m, [COMMA] + rest, x);
      PieceSplit(text, p + m, [COMMA], rest, x);
      SeesMore(text, s, OwnList(fs[0], key) + Lists(fs[0].val, key), MemberLists(fs[1..][..k - 1], key));
      if i < |p| + |m| {
        MemberMatches(text, p, fs[0], [COMMA] + rest + x, i, s, key);
      } else if i == |p| + |m| {
        PieceAt(text, p + m, [COMMA], rest + x, 0);
        NeedsQuote(text, i, key);
      } else {
        LeadMatches(text, p + m + [COMMA], fs[1..], k - 1, x, i, s, key);
      }
    }
  }

  lemma {:induction false} LeadLists(text: Text, p: Text, fs: seq<Field>, k: nat, x: Text, l: seq<Json>, key: Text)
    requires k < |fs| && (forall j :: 0 <= j < |fs| ==> WellFormed(fs[j].val)) && Letters(key)
    requires Piece(text, p, Lead(fs, k), x) && l in MemberLists(fs[..k], key)
    ensures Matched(text, |p|, |p| + |Lead(fs, k)|, l, key)
    decreases k
  {
    hide Letters, Matched, Piece, Lists, MemberText, OwnList, MemberLists;
    NoFrontLists(fs, key);
    hide Lead;
    if k > 0 {
      var m, rest := MemberText(fs[0]), Lead(fs[1..], k - 1);
      LeadText(fs, k);
      FrontLists(fs, k, key);
      PieceSplit(text, p, m, [COMMA] + rest, x);
      PieceSplit(text, p + m, [COMMA], rest, x);
      var end := |p| + |Lead(fs, k)|;
      if l in OwnList(fs[0], key) + Lists(fs[0].val, key) {
        MemberListsMatched(text, p, fs[0], [COMMA] + rest + x, l, key);
        Widen(text, |p|, |p| + |m|, |p|, end, l, key);
      } else {
        LeadLists(text, p + m + [COMMA], fs[1..], k - 1, x, l, key);
        Widen(text, |p| + |m| + 1, end, |p|, end, l, key);
      }
    }
  }

  /** What the global pattern finds is what it matches somewhere. */
  lemma {:induction false} MatchesMatch(text: Text, key: Text, i: nat, s: nat)
    requires s in Matches(text, key, i)
    ensures exists j :: i <= j && MatchAt(text, j, key) == Some(s)
    decreases |text| - i
  {
    hide MatchAt;
    match MatchAt(text, i, key)
    case Some(start) =>
      if s != start {
        MatchesMatch(text, key, start + 1, s);
      }
    case None => MatchesMatch(text, key, i + 1, s);
  }

  /** The body up to the members in front of the k-th. */
  lemma LeadPiece(fs: seq<Field>, k: nat) returns (x: Text)
    requires k < |fs|
    ensures Piece(Stringify(Obj(fs)), [OPEN_OBJECT], Lead(fs, k), x)
  {
    hide Quote, Lead, Print, PostOf;
    CutAtMember(fs, k);
    var l, q, v, post := Lead(fs, k), Quote(fs[k].key), Stringify(fs[k].val), PostOf(fs, k);
    x := q + [COLON] + v + post;
    LeadOpens(l, q, v, post);
  }

  lemma LeadOpens(l: Text, q: Text, v: Text, post: Text)
    ensures ([OPEN_OBJECT] + (l + q + [COLON])) + v + post == [OPEN_OBJECT] + l + (q + [COLON] + v + post)
  {
  }

  /** The lists in front of the key's own that the scanner may take for it. */
  function ListsAhead(fs: seq<Field>, key: Text): seq<seq<Json>> {
    MemberLists(fs[..KeyIndex(fs, key)], key)
  }

  lemma TopIs(fs: seq<Field>, key: Text)
    requires Letters(key) && KeyIndex(fs, key) < |fs|
    ensures TopOf(fs, key) == |Lead(fs, KeyIndex(fs, key))| + |key| + 4
  {
    hide Lead, Quote;
    QuotedLength(key);
  }

  lemma FieldsWellFormed(fs: seq<Field>)
    requires WellFormed(Obj(fs))
    ensures forall j :: 0 <= j < |fs| ==> WellFormed(fs[j].val)
  {
  }

  /** A match in front of the top bracket starts in an earlier member. */
  lemma EarlierMatch(fs: seq<Field>, key: Text, s: nat)
    requires WellFormed(Obj(fs)) && Letters(key) && KeyIndex(fs, key) < |fs| && fs[KeyIndex(fs, key)].val.Arr?
    requires s in Matches(Stringify(Obj(fs)), key, 0) && s < TopOf(fs, key)
    ensures Sees(Stringify(Obj(fs)), s, ListsAhead(fs, key))
  {
    hide Stringify, Letters, Sees, MemberLists, Matches, Lead, TopOf, WellFormed, MatchAt, Piece;
    var k, text := KeyIndex(fs, key), Stringify(Obj(fs));
    TopIs(fs, key);
    FieldsWellFormed(fs);
    var x := LeadPiece(fs, k);
    MatchesMatch(text, key, 0, s);
    var j :| 0 <= j && MatchAt(text, j, key) == Some(s);
    StartsAfterBrace(text, Lead(fs, k), x, j, key);
    LeadMatches(text, [OPEN_OBJECT], fs, k, x, j, s, key);
  }

  lemma StartsAfterBrace(text: Text, m: Text, x: Text, j: nat, key: Text)
    requires Piece(text, [OPEN_OBJECT], m, x) && MatchAt(text, j, key).Some?
    ensures j > 0
  {
    assert text[0] == OPEN_OBJECT;
  }

  /** A list in front of the top bracket is matched there. */
  lemma EarlierList(fs: seq<Field>, key: Text, l: seq<Json>) returns (s: nat)
    requires WellFormed(Obj(fs)) && Letters(key) && KeyIndex(fs, key) < |fs| && l in ListsAhead(fs, key)
    ensures s in Matches(Stringify(Obj(fs)), key, 0) && s < TopOf(fs, key) && ShowsAt(Stringify(Obj(fs)), s, l)
  {
    hide Stringify, Letters, MemberLists, Matches, Lead, Quote, ShowsAt;
    var k, text := KeyIndex(fs, key), Stringify(Obj(fs));
    var x := LeadPiece(fs, k);
    LeadLists(text, [OPEN_OBJECT], fs, k, x, l, key);
    var i, t :| MatchAt(text, i, key) == Some(t) && 1 <= t < 1 + |Lead(fs, k)| && ShowsAt(text, t, l);
    s := t;
    LettersAreKeyLike(key);
    MatchIsFound(text, key, 0, i);
  }

  /**
   * No earlier bracket has as many elements exactly when no list in front of the key's own, at any depth, under the
   * same key or one that ends with a quote and it, has.
   */
  lemma TopFirstMeans(fs: seq<Field>, key: Text, count: nat)
    requires WellFormed(Obj(fs)) && Letters(key) && KeyIndex(fs, key) < |fs| && fs[KeyIndex(fs, key)].val.Arr?
    ensures TopFirst(Stringify(Obj(fs)), key, TopOf(fs, key), count) <==>
            forall l :: l in ListsAhead(fs, key) ==> |l| != count
  {
    hide Stringify, Letters, ListsAhead, Matches, TopOf, SpansAt, WellFormed, ElementsAt;
    var text, top := Stringify(Obj(fs)), TopOf(fs, key);
    forall s | s in Matches(text, key, 0) && s < top
      ensures exists l :: l in ListsAhead(fs, key) && |SpansAt(text, s)| == |l|
    {
      EarlierMatch(fs, key, s);
      var l :| l in ListsAhead(fs, key) && ShowsAt(text, s, l);
    }
    forall l | l in ListsAhead(fs, key)
      ensures exists s :: s in Matches(text, key, 0) && s < top && |SpansAt(text, s)| == |l|
    {
      var s := EarlierList(fs, key, l);
    }
  }

  /**
   * On a serialized body the reported spans are those of the meant list exactly when no list in front of it that
   * looks like it has the same number of elements.
   */
  lemma FoundUnlessNamesake(fs: seq<Field>, key: Text)
    requires WellFormed(Obj(fs)) && MeantKey(fs, MSG_KEYS) == Some(key) && Get(Obj(fs), key).value.elems != []
    ensures var top, items := TopOf(fs, key), Get(Obj(fs), key).value.elems;
      match MsgArrayInfo(Stringify(Obj(fs)), Some(Obj(fs))) {
        case Some(info) =>
          && info.key == key && info.items == items
          && (info.spans == ElementsAt(items, top + 1) <==> forall l :: l in ListsAhead(fs, key) ==> |l| != |items|)
        case None => false
      }
  {
    hide MsgArrayInfo, Stringify, WellFormed, ListsAhead, ElementsAt, TopFirst, Letters, MeantKey;
    InfoIsMeant(fs, key);
    MeantMember(fs, key);
    MsgKeysAreLetters(key);
    TopFirstMeans(fs, key, |Get(Obj(fs), key).value.elems|);
  }

  const QUOTED_KEY: Text := Lit("x") + [QUOTE] + MESSAGES

  lemma QuotedKey()
    ensures NamedLike(QUOTED_KEY, MESSAGES) && QUOTED_KEY != MESSAGES
  {
    assert QUOTED_KEY[0] == 120 && MESSAGES[0] == 109;
    assert QUOTED_KEY[1..] == [QUOTE] + MESSAGES;
  }

  lemma QuotedKeyAhead(inner: seq<Json>, list: seq<Json>)
    requires forall k :: 0 <= k < |inner| ==> WellFormed(inner[k])
    requires forall k :: 0 <= k < |list| ==> WellFormed(list[k])
    ensures var fs := [Field(QUOTED_KEY, Arr(inner)), Field(MESSAGES, Arr(list))];
      && WellFormed(Obj(fs)) && MeantKey(fs, MSG_KEYS) == Some(MESSAGES) && Get(Obj(fs), MESSAGES) == Some(Arr(list))
      && inner in ListsAhead(fs, MESSAGES)
  {
    hide QUOTED_KEY, NamedLike, Lists;
    QuotedKey();
    var fs := [Field(QUOTED_KEY, Arr(inner)), Field(MESSAGES, Arr(list))];
    KeyIndexIs(fs, MESSAGES, 1);
    assert fs[..1][0] == fs[0];
    assert inner in OwnList(fs[0], MESSAGES);
  }

  /** A key that merely ends in a quote and the name misleads the scanner as well. */
  lemma QuotedKeyMisleads(inner: seq<Json>, list: seq<Json>)
    requires forall k :: 0 <= k < |inner| ==> WellFormed(inner[k])
    requires forall k :: 0 <= k < |list| ==> WellFormed(list[k])
    requires |inner| == |list| && list != []
    ensures var fs := [Field(QUOTED_KEY, Arr(inner)), Field(MESSAGES, Arr(list))];
      var info := MsgArrayInfo(Stringify(Obj(fs)), Some(Obj(fs)));
      info.Some? && info.value.items == list && info.value.spans != ElementsAt(list, TopOf(fs, MESSAGES) + 1)
  {
    var fs := [Field(QUOTED_KEY, Arr(inner)), Field(MESSAGES, Arr(list))];
    hide MsgArrayInfo, Stringify, ElementsAt, TopOf, ListsAhead, WellFormed, MeantKey, Get, QUOTED_KEY;
    QuotedKeyAhead(inner, list);
    FoundUnlessNamesake(fs, MESSAGES);
  }
}
