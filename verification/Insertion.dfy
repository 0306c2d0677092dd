/** Where a stamp goes, and that it takes nothing else away. */
module Insertion {
  import opened Texts
  import opened Json
  import opened Printing
  import opened JcsIdentity
  import opened Checkpoint
  import opened Names
  import opened Carriers
  import opened Stamping
  import opened WireShapes

  /** What a standalone carrier of the wire looks like. */
  function FreshCarrier(wire: Wire, tag: Text): Json {
    var said := [Field(Lit("role"), Str(Lit("user"))), Field(Lit("content"), Str(tag))];
    if wire == Responses then Obj([Field(Lit("type"), Str(Lit("message")))] + said) else Obj(said)
  }

  /**
   * The entries cut into what stays, what goes and what follows. At most the last entry before a compaction
   * trigger goes, and only when it says a checkpoint and nothing else.
   */
  ghost predicate Replaces(es: seq<Json>, rs: seq<Json>, wire: Wire, tag: Text, kept: seq<Json>, gone: seq<Json>,
                           after: seq<Json>) {
    && es == kept + gone + after && rs == kept + [FreshCarrier(wire, tag)] + after
    && |gone| <= 1 && (forall e :: e in gone ==> IsCarrier(e, wire))
    && (gone == [] && kept != [] ==> !IsCarrier(kept[|kept| - 1], wire))
    && (if wire == Responses && es != [] && IsCompactionTrigger(es[|es| - 1]) then |after| == 1 else after == [])
  }

  /** A user message whose content can take another part. */
  predicate TakesParts(e: Json) {
    HasRole(e, Lit("user")) && Get(e, Lit("content")).Some?
    && (Get(e, Lit("content")).value.Str? || Get(e, Lit("content")).value.Arr?)
  }

  /** Its parts: words that are no parts yet count as one, and no words as none. */
  function PartsOf(e: Json): seq<Json> {
    match Get(e, Lit("content"))
    case Some(Str(s)) => if s == [] then [] else [Obj([Field(Lit("type"), Str(Lit("text"))), Field(Lit("text"), Str(s))])]
    case _ => Parts(e)
  }

  /** The message joined by the tag: its parts in order, a tag at their end replaced, all other members as they were. */
  ghost predicate Joins(e: Json, r: Json, tag: Text, parts: seq<Json>, gone: seq<Json>) {
    && SameButFor(e, r, Lit("content"))
    && PartsOf(e) == parts + gone
    && Get(r, Lit("content")) ==
         Some(Arr(parts + [Obj([Field(Lit("type"), Str(Lit("text"))), Field(Lit("text"), Str(tag))])]))
    && |gone| <= 1 && (forall p :: p in gone ==> IsTagPart(p, Lit("text")))
    && (gone == [] && parts != [] ==> !IsTagPart(parts[|parts| - 1], Lit("text")))
  }

  ghost predicate Joined(e: Json, r: Json, tag: Text) {
    exists parts, gone :: Joins(e, r, tag, parts, gone)
  }

  /** What inserting a tag makes of a list of entries. */
  ghost predicate Inserted(es: seq<Json>, rs: seq<Json>, wire: Wire, tag: Text) {
    if wire == Anthropic then
      if es == [] || !TakesParts(es[|es| - 1]) then rs == es + [FreshCarrier(wire, tag)]
      else |rs| == |es| && rs[..|es| - 1] == es[..|es| - 1] && Joined(es[|es| - 1], rs[|es| - 1], tag)
    else exists kept, gone, after :: Replaces(es, rs, wire, tag, kept, gone, after)
  }

  /** The key of a body that holds its entries. */
  function EntriesKey(wire: Wire): Text {
    if wire == Responses then Lit("input") else Lit("messages")
  }

  /** What inserting a tag makes of a body's entries; a responses body may hold one user message as plain words. */
  ghost predicate InsertedInto(held: Json, rs: seq<Json>, wire: Wire, tag: Text) {
    match held
    case Arr(es) => Inserted(es, rs, wire, tag)
    case Str(s) => rs == (if s == [] then [] else [FreshCarrier(wire, s)]) + [FreshCarrier(wire, tag)]
    case _ => false
  }

  lemma SameWords()
    ensures CONTENT == Lit("content") && TYPE == Lit("type") && TEXT == Lit("text") && ROLE == Lit("role")
    ensures USER == Lit("user") && MESSAGE == Lit("message") && INPUT_TEXT == Lit("input_text")
    ensures COMPACTION_TRIGGER == Lit("compaction_trigger") && INPUT == Lit("input") && MESSAGES == Lit("messages")
  {
  }

  lemma WholeText(e: Json, kind: Text)
    ensures var whole := SingleText(Get(e, CONTENT), kind);
      && (forall words :: SaysOnly(e, kind, words) ==> whole == Some(words))
      && (whole.Some? ==> SaysOnly(e, kind, whole.value))
  {
    SameWords();
  }

  lemma WholeCarrier(e: Json, wire: Wire)
    requires wire != Anthropic
    ensures IsCarrier(e, wire) <==>
      CarriesWhole(Some(e), TextKind(wire)) && (wire == Responses ==> Get(e, TYPE) == Some(Str(MESSAGE)))
  {
    hide Parse, SaysOnly;
    SameWords();
    WholeText(e, TextKind(wire));
    var whole := SingleText(Get(e, CONTENT), TextKind(wire));
    if CarriesWhole(Some(e), TextKind(wire)) && (wire == Responses ==> Get(e, TYPE) == Some(Str(MESSAGE))) {
      assert IsWholeCarrier(e, wire, Parse(whole.value).value);
    }
  }

  lemma FreshIsAlone(wire: Wire, tag: Text)
    ensures FreshCarrier(wire, tag) == Carrier(Alone(wire), tag)
  {
    SameWords();
  }

  lemma InsertOpenAI(es: seq<Json>, tag: Text)
    ensures var p := ListPoint(es, OpenAI);
      Inserted(es, p.before + [Carrier(p.shape, tag)] + p.after, OpenAI, tag)
  {
    hide IsCarrier, CarriesWhole;
    SameWords();
    NoEntryCarries(TEXT);
    FreshIsAlone(OpenAI, tag);
    var p := ListPoint(es, OpenAI);
    if es != [] {
      WholeCarrier(es[|es| - 1], OpenAI);
    }
    var gone := es[|p.before|..];
    assert es == p.before + gone + [];
    assert Replaces(es, p.before + [Carrier(p.shape, tag)] + p.after, OpenAI, tag, p.before, gone, []);
  }

  lemma NoEntryCarries(kind: Text)
    ensures !CarriesWhole(Last([]), kind)
  {
  }

  lemma VisibleEnd(es: seq<Json>, n: nat)
    requires n == Visible(es, Responses)
    ensures n > 0 ==> es[..n] != [] && Last(es[..n]) == Some(es[n - 1])
    ensures if es != [] && IsCompactionTrigger(es[|es| - 1]) then |es[n..]| == 1 else es[n..] == []
  {
    SameWords();
  }

  lemma InsertResponses(es: seq<Json>, tag: Text)
    ensures var p := ListPoint(es, Responses);
      Inserted(es, p.before + [Carrier(p.shape, tag)] + p.after, Responses, tag)
  {
    hide IsCarrier, CarriesWhole, Visible, IsCompactionTrigger, FreshCarrier, Carrier;
    SameWords();
    FreshIsAlone(Responses, tag);
    var p := ListPoint(es, Responses);
    var n := Visible(es, Responses);
    VisibleEnd(es, n);
    NoEntryCarries(INPUT_TEXT);
    assert n - 1 <= |p.before| <= n;
    if n > 0 {
      WholeCarrier(es[n - 1], Responses);
    }
    var gone := es[|p.before|..n];
    assert es == p.before + gone + es[n..] && p.after == es[n..];
    assert Replaces(es, p.before + [Carrier(p.shape, tag)] + p.after, Responses, tag, p.before, gone, es[n..]);
  }

  lemma TagPart(p: Json)
    ensures IsTagPart(p, Lit("text")) <==> PlainPart(p, TEXT).Some? && Parse(PlainPart(p, TEXT).value).Some?
  {
    hide Parse;
    SameWords();
    if PlainPart(p, TEXT).Some? {
      assert TextOnly(p, Lit("text"), PlainPart(p, TEXT).value);
    }
  }

  /** What merging leaves of the parts: all of them, but for a tag at their end. */
  predicate DropsLastTag(parts: seq<Json>, ps: seq<Json>, last: bool) {
    && |parts| <= |ps| <= |parts| + 1 && parts == ps[..|parts|]
    && (|ps| > |parts| ==> last) && (|ps| == |parts| && ps != [] ==> !last)
  }

  lemma MergedPartsAre(m: Json, parts: seq<Json>, ps: seq<Json>)
    requires TakesParts(m) && parts == MergeParts(Get(m, CONTENT).value) && ps == PartsOf(m)
    ensures DropsLastTag(parts, ps, ps != [] && IsTagPart(ps[|ps| - 1], TEXT))
  {
    hide Parse, IsTagPart, PlainPart;
    SameWords();
    if ps != [] {
      TagPart(ps[|ps| - 1]);
    }
  }

  lemma JoinedByTag(m: Json, tag: Text)
    requires TakesParts(m)
    ensures Joined(m, Carrier(Merged(m, MergeParts(Get(m, CONTENT).value)), tag), tag)
  {
    hide IsTagPart, SameButFor, MergeParts, PartsOf, Put;
    SameWords();
    var parts := MergeParts(Get(m, CONTENT).value);
    PutSameButFor(m, CONTENT, Arr(parts + [TextPart(tag)]));
    MergedPartsAre(m, parts, PartsOf(m));
    assert PartsOf(m) == parts + PartsOf(m)[|parts|..];
    assert Joins(m, Carrier(Merged(m, parts), tag), tag, parts, PartsOf(m)[|parts|..]);
  }

  lemma InsertAnthropic(es: seq<Json>, tag: Text)
    ensures var p := ListPoint(es, Anthropic);
      Inserted(es, p.before + [Carrier(p.shape, tag)] + p.after, Anthropic, tag)
  {
    hide Joined, MergeParts;
    SameWords();
    FreshIsAlone(Anthropic, tag);
    if es != [] && TakesParts(es[|es| - 1]) {
      JoinedByTag(es[|es| - 1], tag);
    }
  }

  /**
   * Inserting a tag changes nothing but the list of entries, and there it adds the tag and replaces at most a
   * checkpoint that stood in its place. It works exactly where there is such a list, or words on responses.
   */
  lemma InsertKeepsTheRest(parsed: Json, wire: Wire, tag: Text)
    ensures InsertCarrier(parsed, wire, tag).Some? <==>
      parsed.Obj? && Get(parsed, EntriesKey(wire)).Some?
      && (Get(parsed, EntriesKey(wire)).value.Arr? || (wire == Responses && Get(parsed, EntriesKey(wire)).value.Str?))
    ensures InsertCarrier(parsed, wire, tag).Some? ==>
      var r := InsertCarrier(parsed, wire, tag).value;
      && SameButFor(parsed, r, EntriesKey(wire))
      && Get(r, EntriesKey(wire)).Some? && Get(r, EntriesKey(wire)).value.Arr?
      && InsertedInto(Get(parsed, EntriesKey(wire)).value, Get(r, EntriesKey(wire)).value.elems, wire, tag)
  {
    hide Inserted, SameButFor, Parse, ListPoint;
    SameWords();
    FreshIsAlone(Responses, tag);
    if InsertCarrier(parsed, wire, tag).Some? {
      var p := InsertionPoint(parsed, wire).value;
      PutSameButFor(parsed, ListKey(wire), Arr(p.before + [Carrier(p.shape, tag)] + p.after));
      var held := Get(parsed, ListKey(wire)).value;
      if held.Arr? {
        match wire
        case OpenAI => InsertOpenAI(held.elems, tag);
        case Responses => InsertResponses(held.elems, tag);
        case Anthropic => InsertAnthropic(held.elems, tag);
      } else {
        FreshIsAlone(Responses, held.s);
      }
    }
  }

  /**
   * A stamp is such an insertion. Its tag names the processor, the time and the digest of the stamped body
   * without carriers, under the first eight digits of that digest.
   */
  lemma StampInserts(parsed: Json, wire: Wire, processor: Text, now: nat, sha: Text -> Text, stamped: Json)
    returns (tag: Text, digest: Text)
    requires HexHash(sha) && Stampable(processor, now)
    requires StampOutbound(parsed, wire, processor, now, sha) == Some(stamped)
    ensures digest == DigestOf(Extract(stamped, wire).stripped, sha) && |digest| == 71
    ensures Parse(tag) == Some(ChainCheckpoint(1, processor, now, digest[7..15], digest))
    ensures SameButFor(parsed, stamped, EntriesKey(wire))
    ensures Get(parsed, EntriesKey(wire)).Some?
    ensures Get(stamped, EntriesKey(wire)).Some? && Get(stamped, EntriesKey(wire)).value.Arr?
    ensures InsertedInto(Get(parsed, EntriesKey(wire)).value, Get(stamped, EntriesKey(wire)).value.elems, wire, tag)
  {
    hide InsertedInto, SameButFor, Parse, Render, Extract, InsertionPoint, Remainder, Others, DigestOf, Get;
    StampHasSlot(parsed, wire, processor, now, sha);
    StampShape(parsed, wire, processor, now, sha);
    var cp := StampOf(parsed, wire, processor, now, sha);
    tag, digest := Render(cp), cp.digest;
    InsertKeepsTheRest(parsed, wire, tag);
    ExtractStamped(parsed, wire, tag);
    StampDigest(parsed, wire, processor, now, sha, stamped);
  }

  lemma StampDigest(parsed: Json, wire: Wire, processor: Text, now: nat, sha: Text -> Text, stamped: Json)
    requires HexHash(sha) && parsed.Obj? && InsertionPoint(parsed, wire).Some?
    requires Extract(stamped, wire).stripped ==
      Put(parsed, ListKey(wire), Arr(Remainder(InsertionPoint(parsed, wire).value, wire)))
    ensures var cp := StampOf(parsed, wire, processor, now, sha);
      && cp.v == 1 && cp.processor == processor && cp.issuedAt == now
      && cp.digest == DigestOf(Extract(stamped, wire).stripped, sha)
      && |cp.digest| == 71 && cp.requestId == cp.digest[7..15]
  {
    hide Extract, InsertionPoint, Remainder;
    DigestIsValid(Extract(stamped, wire).stripped, sha);
  }
}
