/** Which verdict two request bodies get, told by their texts and their lists alone. */
module WireVerdicts {
  import opened Texts
  import opened Seqs
  import opened Json
  import opened Printing
  import opened PrintedMembers
  import opened Names
  import opened ByteCompare
  import opened WireSpans
  import opened WireDiff

  // ---- any two bodies ----

  /**
   * Whatever the bodies parse to: strict says that the older body is a prefix; mid-insert that it is not, and
   * that the newer one is it with new text put in somewhere; and a plain rewrite that neither is so.
   */
  lemma VerdictsMean(a: Text, b: Text, pa: Option<Json>, pb: Option<Json>)
    requires Ascii(a) && Ascii(b)
    ensures var v := CompareWires(a, b, pa, pb);
      && (v.Appended? && v.kind == Strict <==> a <= b)
      && (v.Appended? && v.kind == MidInsert ==> !(a <= b) && exists k :: InsertedAt(a, b, k))
      && (v == Rewritten(false) ==> !(a <= b) && forall k :: !InsertedAt(a, b, k))
  {
    hide MsgArrayInfo, ListVerdict, MidInsertion, InsertedAt;
    MidInsertionMeans(a, b);
    var ia, ib := MsgArrayInfo(a, pa), MsgArrayInfo(b, pb);
    if ia.Some? && ib.Some? {
      ListsSayTailOrFront(a, b, ia.value, ib.value, Lcp(a, b));
    }
  }

  lemma ListsSayTailOrFront(a: Text, b: Text, ia: MsgInfo, ib: MsgInfo, offset: nat)
    ensures var v := ListVerdict(a, b, ia, ib, offset);
      v.Some? ==> v.value == TailKind(ia, ib) || v.value == Rewritten(true)
  {
    hide SharedOk, Slice, Glue, GapOf;
  }

  // ---- bodies whose lists are seen ----

  lemma {:induction false} SharedPrint(a: seq<Json>, b: seq<Json>)
    requires SameShared(a, b)
    ensures PrintItems(a, Plain) <= PrintItems(b, Plain)
    decreases |a|
  {
    hide Print;
    if a != [] {
      var x, y := a[1..], b[1..];
      assert Stringify(a[0]) == Stringify(b[0]);
      assert forall i :: 0 <= i < |x| ==> x[i] == a[i + 1] && y[i] == b[i + 1];
      SharedPrint(x, y);
    }
  }

  /** Shared elements start and end at the same offsets. */
  lemma {:induction false} SharedElements(a: seq<Json>, b: seq<Json>, at: nat)
    requires SameShared(a, b)
    ensures |ElementsAt(a, at)| == |a| && |ElementsAt(b, at)| == |b|
    ensures forall i :: 0 <= i < |a| ==> ElementsAt(a, at)[i] == ElementsAt(b, at)[i]
    decreases |a|
  {
    hide Print;
    SameLength(b, at);
    if a != [] {
      var x, y := a[1..], b[1..];
      assert Stringify(a[0]) == Stringify(b[0]);
      assert forall i :: 0 <= i < |x| ==> x[i] == a[i + 1] && y[i] == b[i + 1];
      SharedElements(x, y, at + |Stringify(a[0])| + 1);
    }
  }

  /** The last element ends where the items end. */
  lemma {:induction false} LastEnds(es: seq<Json>, at: nat)
    requires es != []
    ensures |ElementsAt(es, at)| == |es|
    ensures ElementsAt(es, at)[0].from == at && ElementsAt(es, at)[|es| - 1].to == at + |PrintItems(es, Plain)|
    decreases |es|
  {
    hide Stringify, ElementsAt, PrintItems;
    var t := Stringify(es[0]);
    SameLength(es, at);
    SpansStep(es, at);
    if |es| > 1 {
      LastEnds(es[1..], at + |t| + 1);
    }
  }

  lemma SpansStep(es: seq<Json>, at: nat)
    requires es != []
    ensures var t := Stringify(es[0]);
      && ElementsAt(es, at) == [Span(at, at + |t|)] + ElementsAt(es[1..], at + |t| + 1)
      && PrintItems(es, Plain) == t + (if |es| > 1 then [COMMA] + PrintItems(es[1..], Plain) else [])
  {
    hide Print;
  }

  /** The text up to the end of the items. */
  lemma UpToItems(text: Text, pre: Text, es: seq<Json>, post: Text)
    requires Cut(text, pre, Arr(es), post)
    ensures var n := |pre| + 1 + |PrintItems(es, Plain)|;
      n <= |text| && text[..|pre| + 1] == pre + [OPEN_ARRAY] && text[|pre| + 1..n] == PrintItems(es, Plain)
  {
    hide PrintItems;
    assert text == (pre + [OPEN_ARRAY]) + PrintItems(es, Plain) + ([CLOSE_ARRAY] + post);
  }

  lemma LcpReaches(a: Text, b: Text, n: nat)
    requires Ascii(a) && Ascii(b) && n <= |a| && n <= |b|
    ensures Lcp(a, b) >= n <==> a[..n] == b[..n]
  {
    hide Lcp;
    LcpAgrees(a, b);
    var k := Lcp(a, b);
    if k >= n {
      assert a[..n] == a[..k][..n] && b[..n] == b[..k][..n];
    }
  }

  /** Texts that agree up to the bracket and share the items behind it agree up to their end. */
  lemma AgreeThroughItems(a: Text, b: Text, top: nat, x: Text, y: Text)
    requires top + 1 + |x| <= |a| && top + 1 + |y| <= |b| && x <= y
    requires a[top + 1..top + 1 + |x|] == x && b[top + 1..top + 1 + |y|] == y && a[..top + 1] == b[..top + 1]
    ensures a[..top + 1 + |x|] == b[..top + 1 + |x|]
  {
    var n := top + 1 + |x|;
    assert b[top + 1..n] == y[..|x|] == x;
    assert a[..n] == a[..top + 1] + a[top + 1..n] && b[..n] == b[..top + 1] + b[top + 1..n];
  }

  /** The shared messages stand in the same place: the newer list has them all, at the same offsets. */
  predicate InPlace(fa: seq<Field>, fb: seq<Field>, ka: Text, kb: Text)
    requires KeyIndex(fa, ka) < |fa| && KeyIndex(fb, kb) < |fb|
  {
    ka == kb && TopOf(fa, ka) == TopOf(fb, kb) && SameShared(ListOf(fa, ka), ListOf(fb, kb))
  }

  /** The spans of the list of a body. */
  function ListSpans(fs: seq<Field>, key: Text): seq<Span>
    requires KeyIndex(fs, key) < |fs|
  {
    ElementsAt(ListOf(fs, key), TopOf(fs, key) + 1)
  }

  lemma ListIsSeen(fs: seq<Field>, key: Text)
    requires SeesItsList(fs, key)
    ensures KeyIndex(fs, key) < |fs| && ListOf(fs, key) != [] && |ListSpans(fs, key)| == |ListOf(fs, key)|
    ensures MsgArrayInfo(Stringify(Obj(fs)), Some(Obj(fs))) == Some(MsgInfo(key, ListSpans(fs, key), ListOf(fs, key)))
    ensures var k := KeyIndex(fs, key);
      Cut(Stringify(Obj(fs)), PreOf(fs, k), Arr(ListOf(fs, key)), PostOf(fs, k)) && |PreOf(fs, k)| == TopOf(fs, key)
  {
    hide MsgArrayInfo, ElementsAt, TopFirst, Print, WellFormed, Before, Cut, PostOf, Letters, Matches;
    SeenInfo(fs, key);
    MsgKeysAreLetters(key);
    CutAtTop(fs, key);
  }

  /** The first spans start right behind the brackets. */
  lemma SameStart(a: Text, b: Text, sa: seq<Span>, sb: seq<Span>, n: nat)
    requires 0 < n <= |sa| && n <= |sb| && SharedOk(a, b, sa, sb, n)
    ensures sa[0] == sb[0]
  {
    hide Slice;
  }

  lemma SharedMeansInPlace(fa: seq<Field>, fb: seq<Field>, key: Text)
    requires SeesItsList(fa, key) && SeesItsList(fb, key) && |ListOf(fa, key)| <= |ListOf(fb, key)|
    requires SeenSpans(fa, key) && SeenSpans(fb, key)
    requires SharedOk(Stringify(Obj(fa)), Stringify(Obj(fb)), ListSpans(fa, key), ListSpans(fb, key), |ListOf(fa, key)|)
    ensures InPlace(fa, fb, key, key)
  {
    hide ElementsAt, SharedOk, SeesItsList, Print, TopOf, ListOf, SameShared;
    SharedAreSame(fa, fb, key, key);
    SameTop(Stringify(Obj(fa)), Stringify(Obj(fb)), ListOf(fa, key), ListOf(fb, key), TopOf(fa, key), TopOf(fb, key));
  }

  lemma SameTop(a: Text, b: Text, la: seq<Json>, lb: seq<Json>, ta: nat, tb: nat)
    requires la != [] && lb != [] && |la| <= |lb|
    requires |ElementsAt(la, ta + 1)| == |la| && |ElementsAt(lb, tb + 1)| == |lb|
    requires SharedOk(a, b, ElementsAt(la, ta + 1), ElementsAt(lb, tb + 1), |la|)
    ensures ta == tb
  {
    hide ElementsAt, SharedOk;
    SameStart(a, b, ElementsAt(la, ta + 1), ElementsAt(lb, tb + 1), |la|);
    LastEnds(la, ta + 1);
    LastEnds(lb, tb + 1);
  }

  predicate SeenSpans(fs: seq<Field>, key: Text) {
    KeyIndex(fs, key) < |fs| && ListOf(fs, key) != [] && |ListSpans(fs, key)| == |ListOf(fs, key)|
  }

  lemma InPlaceMeansShared(fa: seq<Field>, fb: seq<Field>, key: Text)
    requires SeesItsList(fa, key) && SeesItsList(fb, key)
    requires SeenSpans(fa, key) && SeenSpans(fb, key) && InPlace(fa, fb, key, key)
    ensures |ListOf(fa, key)| <= |ListOf(fb, key)|
    ensures SharedOk(Stringify(Obj(fa)), Stringify(Obj(fb)), ListSpans(fa, key), ListSpans(fb, key), |ListOf(fa, key)|)
  {
    hide ElementsAt, TopFirst, TopOf, Slice, Print, Matches, WellFormed, MeantKey;
    var a, b, at := ListOf(fa, key), ListOf(fb, key), TopOf(fa, key) + 1;
    SharedElements(a, b, at);
    forall i | 0 <= i < |a|
      ensures Slice(Stringify(Obj(fa)), ListSpans(fa, key)[i]) == Slice(Stringify(Obj(fb)), ListSpans(fb, key)[i])
    {
      TopSlice(fa, key, i);
      TopSlice(fb, key, i);
    }
  }

  /** The spans of the older list end where its items do. */
  lemma SharedEnd(fa: seq<Field>, fb: seq<Field>, key: Text)
    requires SeenSpans(fa, key) && SeenSpans(fb, key) && InPlace(fa, fb, key, key)
    ensures var n, at := |ListOf(fa, key)|, TopOf(fb, key) + 1;
      n <= |ListOf(fb, key)| && ListSpans(fb, key)[0].from == at
      && ListSpans(fb, key)[n - 1].to == at + |PrintItems(ListOf(fa, key), Plain)|
  {
    hide ElementsAt, TopOf, ListOf, Print;
    var a, b, at := ListOf(fa, key), ListOf(fb, key), TopOf(fb, key) + 1;
    SharedElements(a, b, at);
    LastEnds(a, at);
    LastEnds(b, at);
  }

  lemma TextsPart(a: Text, b: Text, top: nat, x: Text, y: Text)
    requires Ascii(a) && Ascii(b)
    requires top + 1 + |x| <= |a| && top + 1 + |y| <= |b| && x <= y
    requires a[top + 1..top + 1 + |x|] == x && b[top + 1..top + 1 + |y|] == y
    ensures Lcp(a, b) >= top + 1 <==> a[..top + 1] == b[..top + 1]
    ensures Lcp(a, b) >= top + 1 ==> Lcp(a, b) >= top + 1 + |x|
  {
    hide Lcp;
    LcpReaches(a, b, top + 1);
    if a[..top + 1] == b[..top + 1] {
      AgreeThroughItems(a, b, top, x, y);
      LcpReaches(a, b, top + 1 + |x|);
    }
  }

  /** When the shared messages stand in place, the texts agree through them as soon as they agree in front. */
  lemma DifferenceOutside(fa: seq<Field>, fb: seq<Field>, key: Text)
    requires SeesItsList(fa, key) && SeesItsList(fb, key)
    requires SeenSpans(fa, key) && SeenSpans(fb, key) && InPlace(fa, fb, key, key)
    requires Ascii(Stringify(Obj(fa))) && Ascii(Stringify(Obj(fb)))
    ensures var ta, tb, at := Stringify(Obj(fa)), Stringify(Obj(fb)), TopOf(fb, key) + 1;
      && at <= |ta| && at <= |tb|
      && (Lcp(ta, tb) >= at <==> ta[..at] == tb[..at])
      && (Lcp(ta, tb) >= at ==> Lcp(ta, tb) >= at + |PrintItems(ListOf(fa, key), Plain)|)
  {
    hide SeesItsList, ElementsAt, TopOf, ListOf, Print, PrintItems, Lcp, Cut, SameShared, Ascii, PreOf, PostOf;
    hide ListSpans, MsgArrayInfo;
    var a, b, top := ListOf(fa, key), ListOf(fb, key), TopOf(fb, key);
    var ta, tb := Stringify(Obj(fa)), Stringify(Obj(fb));
    ListIsSeen(fa, key);
    ListIsSeen(fb, key);
    UpToItems(ta, PreOf(fa, KeyIndex(fa, key)), a, PostOf(fa, KeyIndex(fa, key)));
    UpToItems(tb, PreOf(fb, KeyIndex(fb, key)), b, PostOf(fb, KeyIndex(fb, key)));
    SharedPrint(a, b);
    TextsPart(ta, tb, top, PrintItems(a, Plain), PrintItems(b, Plain));
  }

  /** What the lists decide, when both are seen. */
  lemma SeenListVerdict(fa: seq<Field>, fb: seq<Field>, ka: Text, kb: Text)
    requires SeesItsList(fa, ka) && SeesItsList(fb, kb) && SeenSpans(fa, ka) && SeenSpans(fb, kb)
    requires Ascii(Stringify(Obj(fa))) && Ascii(Stringify(Obj(fb)))
    ensures TopOf(fb, kb) < |Stringify(Obj(fb))|
    ensures InPlace(fa, fb, ka, kb) ==> TopOf(fb, kb) < |Stringify(Obj(fa))|
    ensures var ta, tb := Stringify(Obj(fa)), Stringify(Obj(fb));
      var ia, ib := MsgInfo(ka, ListSpans(fa, ka), ListOf(fa, ka)), MsgInfo(kb, ListSpans(fb, kb), ListOf(fb, kb));
      ListVerdict(ta, tb, ia, ib, Lcp(ta, tb)) ==
        if !InPlace(fa, fb, ka, kb) then None
        else if ta[..TopOf(fb, kb) + 1] == tb[..TopOf(fb, kb) + 1] then Some(TailKind(ia, ib))
        else Some(Rewritten(true))
  {
    hide SeesItsList, ElementsAt, TopOf, ListOf, Print, Lcp, SameShared, Ascii, SharedOk, ListSpans, Glue, GapOf, Slice;
    BracketInside(fb, kb);
    if ka == kb {
      if InPlace(fa, fb, ka, kb) {
        InPlaceMeansShared(fa, fb, ka);
        SharedEnd(fa, fb, ka);
        DifferenceOutside(fa, fb, ka);
      } else if |ListOf(fa, ka)| <= |ListOf(fb, ka)|
             && SharedOk(Stringify(Obj(fa)), Stringify(Obj(fb)), ListSpans(fa, ka), ListSpans(fb, ka), |ListOf(fa, ka)|) {
        SharedMeansInPlace(fa, fb, ka);
      }
    }
  }

  lemma BracketInside(fs: seq<Field>, key: Text)
    requires SeesItsList(fs, key)
    ensures KeyIndex(fs, key) < |fs| && TopOf(fs, key) < |Stringify(Obj(fs))|
  {
    hide TopFirst, Print, WellFormed, Before, Cut, PostOf, Letters, Matches;
    MsgKeysAreLetters(key);
    CutAtTop(fs, key);
  }

  /**
   * The verdict on two serialized bodies whose lists the scanner sees. Strict when the older text is a prefix;
   * else, when all shared messages are equal and in place, a tail by whether the list grew, or a rewrite in
   * front of the array when the texts differ there; else an insertion when there is one, and a rewrite otherwise.
   */
  lemma SeenVerdict(fa: seq<Field>, fb: seq<Field>, ka: Text, kb: Text)
    requires SeesItsList(fa, ka) && SeesItsList(fb, kb)
    requires Ascii(Stringify(Obj(fa))) && Ascii(Stringify(Obj(fb)))
    ensures KeyIndex(fa, ka) < |fa| && KeyIndex(fb, kb) < |fb| && TopOf(fb, kb) < |Stringify(Obj(fb))|
    ensures InPlace(fa, fb, ka, kb) ==> TopOf(fb, kb) < |Stringify(Obj(fa))|
    ensures var a, b := Stringify(Obj(fa)), Stringify(Obj(fb));
      var v, front := CompareWires(a, b, Some(Obj(fa)), Some(Obj(fb))), TopOf(fb, kb) + 1;
      var m, n := |ListOf(fa, ka)|, |ListOf(fb, kb)|;
      if a <= b then v == Appended(Strict, m, n)
      else if InPlace(fa, fb, ka, kb) then
        v == if a[..front] != b[..front] then Rewritten(true) else Appended(if n > m then JsonTail else TailFields, m, n)
      else if exists k :: InsertedAt(a, b, k) then v == Appended(MidInsert, m, n)
      else v == Rewritten(false)
  {
    hide SeesItsList, TopOf, ListOf, Print, Lcp, SameShared, Ascii, ListSpans, InPlace, InsertedAt, CompareWires;
    hide MsgArrayInfo, ListVerdict, Cut;
    ListIsSeen(fa, ka);
    ListIsSeen(fb, kb);
    SeenListVerdict(fa, fb, ka, kb);
    VerdictFrom(Stringify(Obj(fa)), Stringify(Obj(fb)), Some(Obj(fa)), Some(Obj(fb)),
                MsgInfo(ka, ListSpans(fa, ka), ListOf(fa, ka)), MsgInfo(kb, ListSpans(fb, kb), ListOf(fb, kb)));
  }

  lemma VerdictFrom(a: Text, b: Text, pa: Option<Json>, pb: Option<Json>, ia: MsgInfo, ib: MsgInfo)
    requires Ascii(a) && Ascii(b) && MsgArrayInfo(a, pa) == Some(ia) && MsgArrayInfo(b, pb) == Some(ib)
    ensures var v, lists := CompareWires(a, b, pa, pb), ListVerdict(a, b, ia, ib, Lcp(a, b));
      if a <= b then v == Appended(Strict, |ia.items|, |ib.items|)
      else if lists.Some? then v == lists.value
      else if exists k :: InsertedAt(a, b, k) then v == Appended(MidInsert, |ia.items|, |ib.items|)
      else v == Rewritten(false)
  {
    hide MsgArrayInfo, ListVerdict, MidInsertion, InsertedAt, Lcp;
    MidInsertionMeans(a, b);
  }

  // ---- differences between two elements ----

  /** What is compared of a gap: everything but commas and white space, in order. */
  lemma {:induction false} GlueDrops(a: Text, c: CodeUnit)
    ensures Glue(a + [c]) == Glue(a)
      + if c == ',' as int || c == ' ' as int || 9 <= c <= 13 || 0x2000 <= c <= 0x200A
           || c in [0xA0, 0x1680, 0x2028, 0x2029, 0x202F, 0x205F, 0x3000, 0xFEFF] then [] else [c]
  {
    if a == [] {
      assert [] + [c] == [c] && [c][1..] == [];
    } else {
      assert (a + [c])[1..] == a[1..] + [c];
      GlueDrops(a[1..], c);
      Associate(if a[0] == COMMA || Space(a[0]) then [] else [a[0]], Glue(a[1..]), Glue([c]));
      assert [c][1..] == [] && Glue([]) == [];
    }
  }

  /** The offset lies in gap g of the newer list, and in no earlier one. */
  predicate FirstGap(spans: seq<Span>, n: nat, offset: nat, g: nat)
    requires n <= |spans|
  {
    && g + 1 < n && spans[g].to <= offset <= spans[g + 1].from
    && forall h :: 0 <= h < g ==> !(spans[h].to <= offset <= spans[h + 1].from)
  }

  predicate SameGlue(a: Text, b: Text, sa: seq<Span>, sb: seq<Span>, g: nat)
    requires g + 1 < |sa| && g + 1 < |sb|
  {
    Glue(Slice(a, Span(sa[g].to, sa[g + 1].from))) == Glue(Slice(b, Span(sb[g].to, sb[g + 1].from)))
  }

  lemma {:induction false} GapIsFirst(spans: seq<Span>, n: nat, offset: nat, i: nat)
    requires n <= |spans| && i <= n
    requires forall h :: 0 <= h < i && h + 1 < n ==> !(spans[h].to <= offset <= spans[h + 1].from)
    ensures forall g: nat :: FirstGap(spans, n, offset, g) <==> g < n && g == GapOf(spans, n, offset, i)
    decreases n - i
  {
    if i + 1 < n && !(spans[i].to <= offset <= spans[i + 1].from) {
      GapIsFirst(spans, n, offset, i + 1);
    }
  }

  /**
   * Of bodies in any layout: when the shared elements stand in place and the first difference lies between
   * two of them, the lists call it a tail exactly when the two gaps there differ in commas and blanks only.
   */
  lemma GapsDecide(a: Text, b: Text, ia: MsgInfo, ib: MsgInfo, offset: nat)
    requires var n := |ia.items|;
      && ia.key == ib.key && 0 < n <= |ib.items| && n <= |ia.spans| && n <= |ib.spans|
      && SharedOk(a, b, ia.spans, ib.spans, n) && ib.spans[0].from <= offset < ib.spans[n - 1].to
    ensures var n, v := |ia.items|, ListVerdict(a, b, ia, ib, offset);
      && (v.Some? ==> v.value == TailKind(ia, ib))
      && (v.Some? <==> exists g: nat :: FirstGap(ib.spans, n, offset, g) && SameGlue(a, b, ia.spans, ib.spans, g))
  {
    hide SharedOk, Slice, Glue, GapOf, FirstGap;
    GapIsFirst(ib.spans, |ia.items|, offset, 0);
    GapBound(ib.spans, |ia.items|, offset);
    var g := GapOf(ib.spans, |ia.items|, offset, 0);
    assert FirstGap(ib.spans, |ia.items|, offset, g) <==> g < |ia.items|;
  }

  lemma GapBound(spans: seq<Span>, n: nat, offset: nat)
    requires n <= |spans|
    ensures forall g: nat :: FirstGap(spans, n, offset, g) ==> g + 1 < n
  {
  }
}
