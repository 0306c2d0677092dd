/** The canonical string of a turn names its kind and its calls, or its kind and its text. */
module NeutralCanonical {
  import opened Texts
  import opened Seqs
  import opened Json
  import opened KeyOrder
  import opened Printing
  import opened JcsIdentity
  import opened Names
  import opened Neutral

  const CALLS: Text := Lit("calls")

  // ---- the text of a two-member object ----

  function TwoMembers(k1: Text, t1: Text, k2: Text, t2: Text): Text {
    [OPEN_OBJECT] + (Quote(k1) + ([COLON] + (t1 + ([COMMA] + (Quote(k2) + ([COLON] + (t2 + [CLOSE_OBJECT])))))))
  }

  lemma SortTwo(a: Keyed<Text>, b: Keyed<Text>)
    requires a.key != Lit("__proto__") && b.key != Lit("__proto__")
    requires Lex(OwnKeyRank(a.key), OwnKeyRank(b.key)) < 0
    ensures Arrange([a, b], Printing.Canon) == [a, b]
  {
    hide OwnKeyRank, Lex;
    assert [a, b][1..] == [b] && [b][1..] == [];
    assert DropProto([b]) == [b];
    assert SortByRank([b], OwnKeyRank) == [b];
  }

  lemma JoinTwo(a: Keyed<Text>, b: Keyed<Text>)
    ensures [OPEN_OBJECT] + JoinMembers([a, b]) + [CLOSE_OBJECT] == TwoMembers(a.key, a.item, b.key, b.item)
  {
    hide Quote;
    assert [a, b][1..] == [b];
    assert JoinMembers([b]) == Quote(b.key) + [COLON] + b.item;
    assert JoinMembers([a, b]) == Quote(a.key) + [COLON] + a.item + [COMMA] + JoinMembers([b]);
  }

  lemma TwoPrinted(k1: Text, v1: Json, k2: Text, v2: Json)
    ensures PrintMembers([Field(k1, v1), Field(k2, v2)], Printing.Canon) ==
            [Keyed(k1, Neutral.Canon(v1)), Keyed(k2, Neutral.Canon(v2))]
  {
    hide Print;
    var fs := [Field(k1, v1), Field(k2, v2)];
    assert fs[1..] == [Field(k2, v2)] && fs[1..][1..] == [];
    assert PrintMembers(fs[1..], Printing.Canon) == [Keyed(k2, Neutral.Canon(v2))];
  }

  lemma TwoMembersPrinted(k1: Text, v1: Json, k2: Text, v2: Json)
    requires k1 != Lit("__proto__") && k2 != Lit("__proto__")
    requires Lex(OwnKeyRank(k1), OwnKeyRank(k2)) < 0
    ensures Neutral.Canon(Obj([Field(k1, v1), Field(k2, v2)])) ==
            TwoMembers(k1, Neutral.Canon(v1), k2, Neutral.Canon(v2))
  {
    hide OwnKeyRank, Lex, TwoMembers, JoinMembers, PrintMembers, Arrange;
    var a, b := Keyed(k1, Neutral.Canon(v1)), Keyed(k2, Neutral.Canon(v2));
    TwoPrinted(k1, v1, k2, v2);
    SortTwo(a, b);
    JoinTwo(a, b);
  }

  lemma KeyRanks()
    ensures Lex(OwnKeyRank(CALLS), OwnKeyRank(ROLE)) < 0 && Lex(OwnKeyRank(CONTENT), OwnKeyRank(ROLE)) < 0
    ensures CALLS != CONTENT
    ensures CALLS != Lit("__proto__") && CONTENT != Lit("__proto__") && ROLE != Lit("__proto__")
  {
    assert CALLS[0] == 99 && CONTENT[0] == 99 && CALLS[1] == 97 && CONTENT[1] == 111 && ROLE[0] == 114;
    LexOfNames(CALLS);
    LexOfNames(CONTENT);
  }

  lemma LexOfNames(k: Text)
    requires k != [] && k[0] == 99 && ROLE[0] == 114
    ensures Lex(OwnKeyRank(k), OwnKeyRank(ROLE)) < 0
  {
    assert OwnKeyRank(k) == [1] + k && OwnKeyRank(ROLE) == [1] + ROLE;
    assert ([1] + k)[1..] == k && ([1] + ROLE)[1..] == ROLE;
  }

  // ---- strings print alike in every style ----

  lemma {:induction false} StringsPrint(ts: seq<Text>)
    ensures PrintItems(Strings(ts), Printing.Canon) == PrintItems(Strings(ts), Jcs)
  {
    if ts != [] {
      StringsPrint(ts[1..]);
      assert Strings(ts)[1..] == Strings(ts[1..]);
    }
  }

  lemma {:induction false} StringsDenote(a: seq<Text>, b: seq<Text>)
    requires DenoteItems(Strings(a)) == DenoteItems(Strings(b))
    ensures a == b
  {
    if a != [] && b != [] {
      var da, db := DenoteItems(Strings(a)), DenoteItems(Strings(b));
      assert Strings(a)[1..] == Strings(a[1..]) && Strings(b)[1..] == Strings(b[1..]);
      assert da[0] == VStr(a[0]) && db[0] == VStr(b[0]);
      assert da[1..] == DenoteItems(Strings(a[1..])) && db[1..] == DenoteItems(Strings(b[1..]));
      StringsDenote(a[1..], b[1..]);
      assert a == [a[0]] + a[1..] && b == [b[0]] + b[1..];
    }
  }

  lemma CallListUnique(a: seq<Text>, b: seq<Text>, x: Text, y: Text)
    requires Stops(x) && Stops(y)
    requires Neutral.Canon(Arr(Strings(a))) + x == Neutral.Canon(Arr(Strings(b))) + y
    ensures a == b && x == y
  {
    StringsPrint(a);
    StringsPrint(b);
    StringsWellFormed(a);
    StringsWellFormed(b);
    PrintUnique(Arr(Strings(a)), Arr(Strings(b)), x, y);
    StringsDenote(a, b);
  }

  lemma {:induction false} StringsWellFormed(ts: seq<Text>)
    ensures forall i :: 0 <= i < |Strings(ts)| ==> WellFormed(Strings(ts)[i])
  {
    if ts != [] {
      StringsWellFormed(ts[1..]);
    }
  }

  // ---- the name of a turn ----

  function ContentOf(t: Turn): Text {
    if t.text.Some? then t.text.value else []
  }

  /** What a reader of the canonical string can tell about a turn. */
  predicate SameTurn(a: Turn, b: Turn) {
    a.kind == b.kind && a.calls == b.calls && (a.calls.None? ==> ContentOf(a) == ContentOf(b))
  }

  function RoleTail(kind: Text): Text {
    [COMMA] + (Quote(ROLE) + ([COLON] + (Quote(kind) + [CLOSE_OBJECT])))
  }

  lemma RoleTailUnique(a: Text, b: Text)
    requires RoleTail(a) == RoleTail(b)
    ensures a == b
  {
    hide Quote;
    var ta, tb := [COLON] + (Quote(a) + [CLOSE_OBJECT]), [COLON] + (Quote(b) + [CLOSE_OBJECT]);
    CutHead([COMMA], Quote(ROLE) + ta, Quote(ROLE) + tb);
    CutHead(Quote(ROLE), ta, tb);
    CutHead([COLON], Quote(a) + [CLOSE_OBJECT], Quote(b) + [CLOSE_OBJECT]);
    QuoteUnique(a, b, [CLOSE_OBJECT], [CLOSE_OBJECT]);
  }

  function TurnKey(t: Turn): Text {
    if t.calls.Some? then CALLS else CONTENT
  }

  function TurnBody(t: Turn): Text {
    if t.calls.Some? then Neutral.Canon(Arr(Strings(t.calls.value))) else Quote(ContentOf(t))
  }

  lemma TurnPrinted(t: Turn)
    ensures TurnCanonical(t) == [OPEN_OBJECT] + (Quote(TurnKey(t)) + ([COLON] + (TurnBody(t) + RoleTail(t.kind))))
  {
    hide Lex, OwnKeyRank, Quote, Strings;
    KeyRanks();
    if t.calls.Some? {
      TwoMembersPrinted(CALLS, Arr(Strings(t.calls.value)), ROLE, Str(t.kind));
    } else {
      TwoMembersPrinted(CONTENT, Str(ContentOf(t)), ROLE, Str(t.kind));
    }
  }

  /** Two turns have the same canonical string exactly when they agree on kind and calls, and on text without calls. */
  lemma CanonicalNamesTurn(a: Turn, b: Turn)
    ensures TurnCanonical(a) == TurnCanonical(b) <==> SameTurn(a, b)
  {
    hide TurnCanonical, Quote, RoleTail, Neutral.Canon, Strings;
    TurnPrinted(a);
    TurnPrinted(b);
    if TurnCanonical(a) == TurnCanonical(b) {
      var ta, tb := TurnBody(a) + RoleTail(a.kind), TurnBody(b) + RoleTail(b.kind);
      CutHead([OPEN_OBJECT], Quote(TurnKey(a)) + ([COLON] + ta), Quote(TurnKey(b)) + ([COLON] + tb));
      QuoteUnique(TurnKey(a), TurnKey(b), [COLON] + ta, [COLON] + tb);
      CutHead([COLON], ta, tb);
      KeyRanks();
      TailStops(a.kind);
      TailStops(b.kind);
      if a.calls.Some? {
        CallListUnique(a.calls.value, b.calls.value, RoleTail(a.kind), RoleTail(b.kind));
      } else {
        QuoteUnique(ContentOf(a), ContentOf(b), RoleTail(a.kind), RoleTail(b.kind));
      }
      RoleTailUnique(a.kind, b.kind);
    }
  }

  lemma TailStops(kind: Text)
    ensures Stops(RoleTail(kind))
  {
    hide Quote;
  }
}
