/** The canonical printer names JSON values: equal texts exactly for equal values. */
module JcsIdentity {
  import opened Texts
  import opened Seqs
  import opened Json
  import opened KeyOrder
  import opened Printing

  /** What a JSON text means: objects are maps, so the order of keys is gone. */
  datatype Value =
    | VNull
    | VBool(b: bool)
    | VNum(digits: Text)
    | VStr(s: Text)
    | VArr(elems: seq<Value>)
    | VObj(members: map<Text, Value>)

  function Denote(v: Json): Value
    decreases v
  {
    match v
    case Null => VNull
    case Bool(b) => VBool(b)
    case Num(d) => VNum(d)
    case Str(s) => VStr(s)
    case Arr(es) => VArr(DenoteItems(es))
    case Obj(fs) => VObj(DenoteFields(fs))
  }

  function DenoteItems(es: seq<Json>): seq<Value>
    decreases es
  {
    if es == [] then [] else [Denote(es[0])] + DenoteItems(es[1..])
  }

  function DenoteFields(fs: seq<Field>): map<Text, Value>
    decreases fs
  {
    if fs == [] then map[] else DenoteFields(fs[1..])[fs[0].key := Denote(fs[0].val)]
  }

  // ---- escaped strings are uniquely decodable ----

  lemma Base16(c: nat, d: nat)
    requires HexDigit(c % 16) == HexDigit(d % 16) && c / 16 == d / 16
    ensures c == d
  {
  }

  lemma UnicodeEscapeInjective(c: CodeUnit, d: CodeUnit)
    requires UnicodeEscape(c) == UnicodeEscape(d)
    ensures c == d
  {
    var a, b := UnicodeEscape(c), UnicodeEscape(d);
    assert a[2] == b[2] && a[3] == b[3] && a[4] == b[4] && a[5] == b[5];
    Base16(c / 16 / 16, d / 16 / 16);
    Base16(c / 16, d / 16);
    Base16(c, d);
  }

  lemma TokenUnique(a: Text, b: Text, p: Text, q: Text)
    requires a != [] && b != []
    requires Token(a) + p == Token(b) + q
    ensures Token(a) == Token(b) && p == q
    ensures TokenWidth(a) == TokenWidth(b) && a[..TokenWidth(a)] == b[..TokenWidth(b)]
  {
    var ta, tb := Token(a), Token(b);
    var s := ta + p;
    assert s[0] == ta[0] == tb[0];
    if |ta| >= 2 && |tb| >= 2 {
      assert s[1] == ta[1] == tb[1];
    }
    if |ta| == 6 && |tb| == 6 {
      assert ta == s[..6] == tb;
      UnicodeEscapeInjective(a[0], b[0]);
    }
    assert |ta| == |tb|;
    SplitConcat(ta, p, tb, q);
  }

  lemma {:induction false} EscapeUnique(a: Text, b: Text, x: Text, y: Text)
    requires Escape(a) + [QUOTE] + x == Escape(b) + [QUOTE] + y
    ensures a == b && x == y
  {
    hide Token, TokenWidth;
    var l, r := Escape(a) + [QUOTE] + x, Escape(b) + [QUOTE] + y;
    if a == [] || b == [] {
      assert l[0] == r[0];
      assert a == [] && b == [];
      assert l == [QUOTE] + x && r == [QUOTE] + y;
      CutHead([QUOTE], x, y);
    } else {
      var a', b' := a[TokenWidth(a)..], b[TokenWidth(b)..];
      var p, q := Escape(a') + [QUOTE] + x, Escape(b') + [QUOTE] + y;
      assert l == Token(a) + p && r == Token(b) + q;
      TokenUnique(a, b, p, q);
      EscapeUnique(a', b', x, y);
      assert a == a[..TokenWidth(a)] + a' && b == b[..TokenWidth(b)] + b';
    }
  }

  lemma QuoteUnique(a: Text, b: Text, x: Text, y: Text)
    requires Quote(a) + x == Quote(b) + y
    ensures a == b && x == y
  {
    hide Escape;
    assert Quote(a) + x == [QUOTE] + (Escape(a) + [QUOTE] + x);
    assert Quote(b) + y == [QUOTE] + (Escape(b) + [QUOTE] + y);
    CutHead([QUOTE], Escape(a) + [QUOTE] + x, Escape(b) + [QUOTE] + y);
    EscapeUnique(a, b, x, y);
  }

  // ---- printed values are uniquely decodable ----

  /** A place where a printed value can stop: the end, or a separator. */
  predicate Stops(x: Text) {
    x == [] || x[0] == COMMA || x[0] == CLOSE_ARRAY || x[0] == CLOSE_OBJECT
  }

  lemma NumberUnique(a: Text, b: Text, x: Text, y: Text)
    requires NumberText(a) && NumberText(b) && Stops(x) && Stops(y)
    requires a + x == b + y
    ensures a == b && x == y
  {
    var l := a + x;
    assert forall i :: 0 <= i < |b| ==> l[i] == b[i];
    assert x != [] ==> l[|a|] == x[0];
    assert y != [] ==> l[|b|] == y[0];
    assert |a| <= |b| by {
      assert forall i :: 0 <= i < |a| ==> NumberChar(l[i]);
    }
    assert |b| <= |a| by {
      assert forall i :: 0 <= i < |b| ==> NumberChar(l[i]);
    }
    SplitConcat(a, x, b, y);
  }

  /** The first character of a printed value tells which kind of value it is. */
  lemma PrintHead(v: Json)
    requires WellFormed(v)
    ensures var t := JcsStringify(v);
      && |t| >= 1
      && t[0] == match v {
        case Null => 110
        case Bool(b) => if b then 116 else 102
        case Num(d) => d[0]
        case Str(_) => QUOTE
        case Arr(_) => OPEN_ARRAY
        case Obj(_) => OPEN_OBJECT
      }
  {
  }

  lemma ArrayBody(es: seq<Json>, x: Text)
    ensures JcsStringify(Arr(es)) + x == [OPEN_ARRAY] + (PrintItems(es, Jcs) + [CLOSE_ARRAY] + x)
  {
    Regroup([OPEN_ARRAY], PrintItems(es, Jcs), [CLOSE_ARRAY], x);
  }

  lemma {:induction false} PrintUnique(a: Json, b: Json, x: Text, y: Text)
    requires WellFormed(a) && WellFormed(b) && Stops(x) && Stops(y)
    requires JcsStringify(a) + x == JcsStringify(b) + y
    ensures Denote(a) == Denote(b) && x == y
    decreases a, 0
  {
    PrintHead(a);
    PrintHead(b);
    assert (JcsStringify(a) + x)[0] == JcsStringify(a)[0];
    assert (JcsStringify(b) + y)[0] == JcsStringify(b)[0];
    match a
    case Null => CutHead(Lit("null"), x, y);
    case Bool(b0) => CutHead(JcsStringify(a), x, y);
    case Num(d) => NumberUnique(d, b.digits, x, y);
    case Str(s) => QuoteUnique(s, b.s, x, y);
    case Arr(es) =>
      ArrayBody(es, x);
      ArrayBody(b.elems, y);
      CutHead([OPEN_ARRAY], PrintItems(es, Jcs) + [CLOSE_ARRAY] + x, PrintItems(b.elems, Jcs) + [CLOSE_ARRAY] + y);
      ItemsUnique(es, b.elems, x, y);
    case Obj(fs) =>
      ObjectUnique(fs, b.fields, x, y);
  }

  lemma {:induction false} ItemsUnique(es: seq<Json>, fs: seq<Json>, x: Text, y: Text)
    requires forall i :: 0 <= i < |es| ==> WellFormed(es[i])
    requires forall i :: 0 <= i < |fs| ==> WellFormed(fs[i])
    requires PrintItems(es, Jcs) + [CLOSE_ARRAY] + x == PrintItems(fs, Jcs) + [CLOSE_ARRAY] + y
    ensures DenoteItems(es) == DenoteItems(fs) && x == y
    decreases es, 0
  {
    var l, r := PrintItems(es, Jcs) + [CLOSE_ARRAY] + x, PrintItems(fs, Jcs) + [CLOSE_ARRAY] + y;
    ItemsHead(es, x);
    ItemsHead(fs, y);
    if es == [] || fs == [] {
      assert es == [] && fs == [];
      assert l == [CLOSE_ARRAY] + x && r == [CLOSE_ARRAY] + y;
      CutHead([CLOSE_ARRAY], x, y);
    } else {
      var p := AfterItem(es, x);
      var q := AfterItem(fs, y);
      PrintUnique(es[0], fs[0], p, q);
      assert p[0] == q[0];
      if |es| > 1 {
        CutHead([COMMA], p[1..], q[1..]);
        ItemsUnique(es[1..], fs[1..], x, y);
      } else {
        CutHead([CLOSE_ARRAY], x, y);
      }
    }
  }

  /** A list closes at once exactly when it is empty. */
  lemma ItemsHead(es: seq<Json>, x: Text)
    requires forall i :: 0 <= i < |es| ==> WellFormed(es[i])
    ensures (PrintItems(es, Jcs) + [CLOSE_ARRAY] + x)[0] == CLOSE_ARRAY <==> es == []
  {
    if es != [] {
      PrintHead(es[0]);
      assert (PrintItems(es, Jcs) + [CLOSE_ARRAY] + x)[0] == JcsStringify(es[0])[0];
    }
  }

  /** What follows the first item of a printed list. */
  lemma AfterItem(es: seq<Json>, x: Text) returns (p: Text)
    requires es != []
    ensures PrintItems(es, Jcs) + [CLOSE_ARRAY] + x == JcsStringify(es[0]) + p
    ensures Stops(p) && p != []
    ensures if |es| == 1 then p == [CLOSE_ARRAY] + x
            else p == [COMMA] + p[1..] && p[1..] == PrintItems(es[1..], Jcs) + [CLOSE_ARRAY] + x
  {
    if |es| == 1 {
      p := [CLOSE_ARRAY] + x;
    } else {
      p := [COMMA] + (PrintItems(es[1..], Jcs) + [CLOSE_ARRAY] + x);
    }
  }

  // ---- objects ----

  /** Every printed member comes from the field with its key. */
  ghost predicate FromFields(ms: seq<Keyed<Text>>, fs: seq<Field>) {
    forall i :: 0 <= i < |ms| ==> IsMember(ms[i], fs)
  }

  ghost predicate IsMember(m: Keyed<Text>, fs: seq<Field>) {
    && KeyIndex(fs, m.key) < |fs|
    && m.item == JcsStringify(fs[KeyIndex(fs, m.key)].val)
  }

  function Lookup(fs: seq<Field>, key: Text): Json
    requires KeyIndex(fs, key) < |fs|
  {
    fs[KeyIndex(fs, key)].val
  }

  lemma {:induction false} MembersAt(fs: seq<Field>, i: nat)
    requires i < |fs|
    ensures PrintMembers(fs, Jcs)[i] == Keyed(fs[i].key, JcsStringify(fs[i].val))
  {
    if i > 0 {
      MembersAt(fs[1..], i - 1);
    }
  }

  lemma MembersFromFields(fs: seq<Field>)
    requires DistinctKeys(fs)
    ensures FromFields(PrintMembers(fs, Jcs), fs)
  {
    var ms := PrintMembers(fs, Jcs);
    forall i | 0 <= i < |ms| ensures IsMember(ms[i], fs) {
      MembersAt(fs, i);
      KeyIndexIs(fs, fs[i].key, i);
    }
  }

  lemma {:induction false} DistinctMembers(ms: seq<Keyed<Text>>, fs: seq<Field>)
    requires |ms| == |fs| && DistinctKeys(fs)
    requires forall i :: 0 <= i < |fs| ==> ms[i].key == fs[i].key
    ensures KeysDistinct(ms)
  {
    if ms != [] {
      DistinctMembers(ms[1..], fs[1..]);
    }
  }

  lemma CodePointsRank()
    ensures Injective(CodePoints)
  {
    forall a, b | CodePoints(a) == CodePoints(b) ensures a == b {
      CodePointsInjective(a, b);
    }
  }

  /** The sorted members of an object: strictly increasing and each one from its field. */
  lemma SortedMembers(fs: seq<Field>) returns (ms: seq<Keyed<Text>>)
    requires DistinctKeys(fs)
    ensures ms == Arrange(PrintMembers(fs, Jcs), Jcs)
    ensures StrictlySorted(ms, CodePoints) && multiset(ms) == multiset(PrintMembers(fs, Jcs))
    ensures FromFields(ms, fs)
  {
    var raw := PrintMembers(fs, Jcs);
    ms := SortByRank(raw, CodePoints);
    CodePointsRank();
    DistinctMembers(raw, fs);
    SortSorted(raw, CodePoints);
    SortMembers(raw, CodePoints);
    MembersFromFields(fs);
    forall i | 0 <= i < |ms| ensures IsMember(ms[i], fs) {
      assert ms[i] in multiset(raw);
    }
  }

  lemma {:induction false} ObjectUnique(fa: seq<Field>, fb: seq<Field>, x: Text, y: Text)
    requires WellFormed(Obj(fa)) && WellFormed(Obj(fb))
    requires JcsStringify(Obj(fa)) + x == JcsStringify(Obj(fb)) + y
    ensures DenoteFields(fa) == DenoteFields(fb) && x == y
    decreases fa, 2
  {
    var ma := SortedMembers(fa);
    var mb := SortedMembers(fb);
    ObjectBody(fa, ma, x);
    ObjectBody(fb, mb, y);
    CutHead([OPEN_OBJECT], JoinMembers(ma) + [CLOSE_OBJECT] + x, JoinMembers(mb) + [CLOSE_OBJECT] + y);
    MembersUnique(ma, mb, fa, fb, x, y);
    SameMembersSameMap(ma, mb, fa, fb);
  }

  lemma ObjectBody(fs: seq<Field>, ms: seq<Keyed<Text>>, x: Text)
    requires ms == Arrange(PrintMembers(fs, Jcs), Jcs)
    ensures JcsStringify(Obj(fs)) + x == [OPEN_OBJECT] + (JoinMembers(ms) + [CLOSE_OBJECT] + x)
  {
    Regroup([OPEN_OBJECT], JoinMembers(ms), [CLOSE_OBJECT], x);
  }

  lemma MemberOpens(q: Text, v: Text, more: Text, close: Text, x: Text)
    ensures (q + [COLON] + v + more) + close + x == q + ([COLON] + (v + (more + close + x)))
  {
  }

  /** The text after the first key of a printed member list, and after its value. */
  lemma AfterMember(ms: seq<Keyed<Text>>, x: Text) returns (p: Text)
    requires ms != []
    ensures JoinMembers(ms) + [CLOSE_OBJECT] + x == Quote(ms[0].key) + ([COLON] + (ms[0].item + p))
    ensures Stops(p) && p != []
    ensures if |ms| == 1 then p == [CLOSE_OBJECT] + x
            else p == [COMMA] + p[1..] && p[1..] == JoinMembers(ms[1..]) + [CLOSE_OBJECT] + x
  {
    hide Quote;
    var q, v := Quote(ms[0].key), ms[0].item;
    if |ms| == 1 {
      p := [CLOSE_OBJECT] + x;
      MemberOpens(q, v, [], [CLOSE_OBJECT], x);
    } else {
      p := [COMMA] + (JoinMembers(ms[1..]) + [CLOSE_OBJECT] + x);
      MemberOpens(q, v, [COMMA] + JoinMembers(ms[1..]), [CLOSE_OBJECT], x);
      Associate(q + [COLON] + v, [COMMA], JoinMembers(ms[1..]));
    }
  }

  /** Two printed member lists with the same text agree on their first member and on the rest. */
  lemma {:induction false} FirstMemberUnique(ma: seq<Keyed<Text>>, mb: seq<Keyed<Text>>, fa: seq<Field>, fb: seq<Field>,
                                             x: Text, y: Text)
    requires ma != [] && mb != [] && IsMember(ma[0], fa) && IsMember(mb[0], fb)
    requires WellFormed(Obj(fa)) && WellFormed(Obj(fb))
    requires JoinMembers(ma) + [CLOSE_OBJECT] + x == JoinMembers(mb) + [CLOSE_OBJECT] + y
    ensures ma[0].key == mb[0].key
    ensures Denote(Lookup(fa, ma[0].key)) == Denote(Lookup(fb, mb[0].key))
    ensures |ma| == 1 <==> |mb| == 1
    ensures |ma| == 1 ==> x == y
    ensures |ma| > 1 ==> JoinMembers(ma[1..]) + [CLOSE_OBJECT] + x == JoinMembers(mb[1..]) + [CLOSE_OBJECT] + y
    decreases fa, 0
  {
    var p := AfterMember(ma, x);
    var q := AfterMember(mb, y);
    QuoteUnique(ma[0].key, mb[0].key, [COLON] + (ma[0].item + p), [COLON] + (mb[0].item + q));
    CutHead([COLON], ma[0].item + p, mb[0].item + q);
    PrintUnique(Lookup(fa, ma[0].key), Lookup(fb, mb[0].key), p, q);
    assert p[0] == q[0];
    if |ma| > 1 {
      CutHead([COMMA], p[1..], q[1..]);
    } else {
      CutHead([CLOSE_OBJECT], x, y);
    }
  }

  lemma MembersHead(ms: seq<Keyed<Text>>, x: Text)
    ensures (JoinMembers(ms) + [CLOSE_OBJECT] + x)[0] == if ms == [] then CLOSE_OBJECT else QUOTE
  {
  }

  lemma {:induction false} MembersUnique(ma: seq<Keyed<Text>>, mb: seq<Keyed<Text>>, fa: seq<Field>, fb: seq<Field>,
                                         x: Text, y: Text)
    requires FromFields(ma, fa) && FromFields(mb, fb)
    requires WellFormed(Obj(fa)) && WellFormed(Obj(fb))
    requires JoinMembers(ma) + [CLOSE_OBJECT] + x == JoinMembers(mb) + [CLOSE_OBJECT] + y
    ensures x == y && |ma| == |mb|
    ensures forall i :: 0 <= i < |ma| ==> SameMember(ma[i], mb[i], fa, fb)
    decreases fa, 1, |ma|
  {
    hide Quote, Denote, Lookup, KeyIndex;
    MembersHead(ma, x);
    MembersHead(mb, y);
    if ma == [] || mb == [] {
      assert [CLOSE_OBJECT] + x == [] + [CLOSE_OBJECT] + x;
      assert [CLOSE_OBJECT] + y == [] + [CLOSE_OBJECT] + y;
      CutHead([CLOSE_OBJECT], x, y);
    } else {
      assert IsMember(ma[0], fa) && IsMember(mb[0], fb);
      FirstMemberUnique(ma, mb, fa, fb, x, y);
      if |ma| > 1 {
        MembersUnique(ma[1..], mb[1..], fa, fb, x, y);
        assert forall i :: 1 <= i < |ma| ==> ma[i] == ma[1..][i - 1] && mb[i] == mb[1..][i - 1];
      }
    }
  }

  ghost predicate SameMember(m: Keyed<Text>, n: Keyed<Text>, fa: seq<Field>, fb: seq<Field>) {
    && IsMember(m, fa) && IsMember(n, fb)
    && m.key == n.key
    && Denote(Lookup(fa, m.key)) == Denote(Lookup(fb, n.key))
  }

  lemma {:induction false} DenoteFieldsAt(fs: seq<Field>, key: Text)
    ensures key in DenoteFields(fs) <==> KeyIndex(fs, key) < |fs|
    ensures key in DenoteFields(fs) ==> DenoteFields(fs)[key] == Denote(Lookup(fs, key))
  {
    if fs != [] && fs[0].key != key {
      DenoteFieldsAt(fs[1..], key);
    }
  }

  lemma KeyInMembers(fs: seq<Field>, ms: seq<Keyed<Text>>, key: Text) returns (i: nat)
    requires multiset(ms) == multiset(PrintMembers(fs, Jcs)) && KeyIndex(fs, key) < |fs|
    ensures i < |ms| && ms[i].key == key
  {
    MembersAt(fs, KeyIndex(fs, key));
    assert PrintMembers(fs, Jcs)[KeyIndex(fs, key)] in multiset(ms);
    i :| 0 <= i < |ms| && ms[i].key == key;
  }

  lemma SameMembersSameMap(ma: seq<Keyed<Text>>, mb: seq<Keyed<Text>>, fa: seq<Field>, fb: seq<Field>)
    requires multiset(ma) == multiset(PrintMembers(fa, Jcs)) && multiset(mb) == multiset(PrintMembers(fb, Jcs))
    requires |ma| == |mb|
    requires forall i :: 0 <= i < |ma| ==> SameMember(ma[i], mb[i], fa, fb)
    ensures DenoteFields(fa) == DenoteFields(fb)
  {
    forall key
      ensures key in DenoteFields(fa) <==> key in DenoteFields(fb)
      ensures key in DenoteFields(fa) ==> DenoteFields(fa)[key] == DenoteFields(fb)[key]
    {
      DenoteFieldsAt(fa, key);
      DenoteFieldsAt(fb, key);
      if key in DenoteFields(fa) {
        var i := KeyInMembers(fa, ma, key);
        assert SameMember(ma[i], mb[i], fa, fb);
      }
      if key in DenoteFields(fb) {
        var i := KeyInMembers(fb, mb, key);
        assert SameMember(ma[i], mb[i], fa, fb);
      }
    }
  }

  // ---- the other direction ----

  lemma {:induction false} MemberSource(fs: seq<Field>, m: Keyed<Text>)
    requires DistinctKeys(fs)
    ensures m in PrintMembers(fs, Jcs) <==> IsMember(m, fs)
  {
    MembersFromFields(fs);
    if IsMember(m, fs) {
      MembersAt(fs, KeyIndex(fs, m.key));
    }
  }

  lemma {:induction false} AtMostOnce(ms: seq<Keyed<Text>>, m: Keyed<Text>)
    requires KeysDistinct(ms)
    ensures multiset(ms)[m] == if m in ms then 1 else 0
  {
    if ms != [] {
      AtMostOnce(ms[1..], m);
      assert ms == [ms[0]] + ms[1..];
    }
  }

  lemma {:induction false} SameValueSamePrint(a: Json, b: Json)
    requires WellFormed(a) && WellFormed(b) && Denote(a) == Denote(b)
    ensures JcsStringify(a) == JcsStringify(b)
    decreases a, 0
  {
    match a
    case Null =>
    case Bool(_) =>
    case Num(_) =>
    case Str(_) =>
    case Arr(es) => SameItemsSamePrint(es, b.elems);
    case Obj(fs) => SameFieldsSamePrint(fs, b.fields);
  }

  lemma {:induction false} SameItemsSamePrint(es: seq<Json>, fs: seq<Json>)
    requires forall i :: 0 <= i < |es| ==> WellFormed(es[i])
    requires forall i :: 0 <= i < |fs| ==> WellFormed(fs[i])
    requires DenoteItems(es) == DenoteItems(fs)
    ensures PrintItems(es, Jcs) == PrintItems(fs, Jcs)
    decreases es, 0
  {
    if es != [] && fs != [] {
      assert Denote(es[0]) == DenoteItems(es)[0] == DenoteItems(fs)[0] == Denote(fs[0]);
      assert DenoteItems(es)[1..] == DenoteItems(es[1..]) && DenoteItems(fs)[1..] == DenoteItems(fs[1..]);
      SameValueSamePrint(es[0], fs[0]);
      SameItemsSamePrint(es[1..], fs[1..]);
    }
  }

  lemma {:induction false} SameFieldsSamePrint(fa: seq<Field>, fb: seq<Field>)
    requires WellFormed(Obj(fa)) && WellFormed(Obj(fb))
    requires DenoteFields(fa) == DenoteFields(fb)
    ensures JcsStringify(Obj(fa)) == JcsStringify(Obj(fb))
    decreases fa, 1
  {
    var ma, mb := PrintMembers(fa, Jcs), PrintMembers(fb, Jcs);
    DistinctMembers(ma, fa);
    DistinctMembers(mb, fb);
    forall m ensures multiset(ma)[m] == multiset(mb)[m] {
      AtMostOnce(ma, m);
      AtMostOnce(mb, m);
      MemberSource(fa, m);
      MemberSource(fb, m);
      MemberCarriesOver(fa, fb, m);
    }
    assert multiset(ma) == multiset(mb);
    CodePointsRank();
    SortIgnoresOrder(ma, mb, CodePoints);
  }

  lemma {:induction false} MemberCarriesOver(fa: seq<Field>, fb: seq<Field>, m: Keyed<Text>)
    requires WellFormed(Obj(fa)) && WellFormed(Obj(fb))
    requires DenoteFields(fa) == DenoteFields(fb)
    ensures IsMember(m, fa) <==> IsMember(m, fb)
    decreases fa, 0
  {
    DenoteFieldsAt(fa, m.key);
    DenoteFieldsAt(fb, m.key);
    if m.key in DenoteFields(fa) {
      SameValueSamePrint(Lookup(fa, m.key), Lookup(fb, m.key));
    }
  }

  /** The canonical printer is a name for the value: key order never matters, nothing else is lost. */
  lemma PrintsAlikeIffSameValue(a: Json, b: Json)
    requires WellFormed(a) && WellFormed(b)
    ensures JcsStringify(a) == JcsStringify(b) <==> Denote(a) == Denote(b)
  {
    if JcsStringify(a) == JcsStringify(b) {
      assert JcsStringify(a) + [] == JcsStringify(b) + [];
      PrintUnique(a, b, [], []);
    }
    if Denote(a) == Denote(b) {
      SameValueSamePrint(a, b);
    }
  }
}
