/** Stamping closes: a stamped body verifies, restamping is stable, and a match names the body. */
module Stamping {
  import opened Texts
  import opened Seqs
  import opened Json
  import opened Printing
  import opened JcsIdentity
  import opened Checkpoint
  import opened Names
  import opened Carriers

  lemma KeysDiffer()
    ensures ROLE != CONTENT && TYPE != TEXT && TYPE != ROLE && TYPE != CONTENT
    ensures MESSAGE != COMPACTION_TRIGGER
  {
    assert ROLE[0] == 114 && TYPE[0] == 116 && TEXT[1] == 101 && TYPE[1] == 121;
  }

  lemma AloneFields(wire: Wire, tag: Text)
    ensures var c := Carrier(Alone(wire), tag);
      && Get(c, ROLE) == Some(Str(USER)) && Get(c, CONTENT) == Some(Str(tag))
      && (wire == Responses ==> Get(c, TYPE) == Some(Str(MESSAGE)))
  {
    KeysDiffer();
    var c := Carrier(Alone(wire), tag);
    if wire == Responses {
      KeyIndexIs(c.fields, TYPE, 0);
      KeyIndexIs(c.fields, ROLE, 1);
      KeyIndexIs(c.fields, CONTENT, 2);
    } else {
      KeyIndexIs(c.fields, ROLE, 0);
      KeyIndexIs(c.fields, CONTENT, 1);
    }
  }

  lemma TextPartIsPlain(tag: Text)
    ensures PlainPart(TextPart(tag), TEXT) == Some(tag)
  {
    KeysDiffer();
    KeyIndexIs(TextPart(tag).fields, TYPE, 0);
    KeyIndexIs(TextPart(tag).fields, TEXT, 1);
  }

  /** A merged carrier may only sit in a user message of the anthropic wire. */
  predicate GoodShape(shape: Shape, wire: Wire) {
    match shape
    case Alone(w) => w == wire
    case Merged(m, _) => wire == Anthropic && IsUser(m)
  }

  lemma MergedFields(m: Json, parts: seq<Json>, tag: Text)
    requires IsUser(m)
    ensures var c := Carrier(Merged(m, parts), tag);
      && c.Obj? && Get(c, ROLE) == Some(Str(USER)) && Get(c, CONTENT) == Some(Arr(parts + [TextPart(tag)]))
  {
    KeysDiffer();
    GetPut(m, CONTENT, Arr(parts + [TextPart(tag)]), ROLE);
  }

  /** What is left of a carrier entry once its tag is out, whatever the tag said. */
  function Residue(shape: Shape): seq<Json>
    requires shape.Merged? ==> shape.msg.Obj?
  {
    match shape
    case Alone(_) => []
    case Merged(m, parts) => if parts == [] then [] else [Put(m, CONTENT, Arr(parts))]
  }

  lemma AloneIsRecognised(wire: Wire, tag: Text)
    ensures PlaceOf(Carrier(Alone(wire), tag), wire) == Slot(None, tag)
  {
    AloneFields(wire, tag);
  }

  lemma MergedIsRecognised(m: Json, parts: seq<Json>, tag: Text)
    requires IsUser(m)
    ensures PlaceOf(Carrier(Merged(m, parts), tag), Anthropic) == Slot(if parts == [] then None else Some(|parts|), tag)
  {
    MergedFields(m, parts, tag);
    TextPartIsPlain(tag);
    var whole := parts + [TextPart(tag)];
    assert whole[|parts|] == TextPart(tag);
  }

  /** An inserted carrier is recognised as the tag, and stripping it leaves no trace of the tag. */
  lemma CarrierIsRecognised(shape: Shape, wire: Wire, tag: Text)
    requires GoodShape(shape, wire)
    ensures PlaceOf(Carrier(shape, tag), wire).Slot? && CarrierOf(Carrier(shape, tag), wire) == Parse(tag)
    ensures Parse(tag).Some? ==> StripEntry(Carrier(shape, tag), wire) == Residue(shape)
  {
    match shape
    case Alone(w) => AloneIsRecognised(w, tag);
    case Merged(m, parts) =>
      MergedIsRecognised(m, parts, tag);
      MergedFields(m, parts, tag);
      assert RemoveAt(parts + [TextPart(tag)], |parts|) == parts;
      PutPut(m, CONTENT, Arr(parts + [TextPart(tag)]), Arr(parts));
  }

  predicate GoodPoint(p: Point, wire: Wire) {
    && GoodShape(p.shape, wire)
    && (p.after == [] || (wire == Responses && |p.after| == 1 && IsTrigger(p.after[0])))
  }

  lemma PointIsGood(parsed: Json, wire: Wire)
    requires InsertionPoint(parsed, wire).Some?
    ensures GoodPoint(InsertionPoint(parsed, wire).value, wire)
  {
  }

  lemma CarrierIsNoTrigger(shape: Shape, wire: Wire, tag: Text)
    requires GoodShape(shape, wire)
    ensures wire == Responses ==> !IsTrigger(Carrier(shape, tag))
  {
    if wire == Responses {
      AloneFields(wire, tag);
      KeysDiffer();
    }
  }

  /** What is left of the list around a carrier. */
  function Remainder(p: Point, wire: Wire): seq<Json>
    requires p.shape.Merged? ==> p.shape.msg.Obj?
  {
    var k := RunStart(p.before, wire);
    p.before[..k] + StripRun(p.before[k..], wire) + Residue(p.shape) + p.after
  }

  /** The checkpoints other carriers of the trailing run hold. */
  function Others(p: Point, wire: Wire): seq<ChainCheckpoint> {
    CandidatesOf(p.before[RunStart(p.before, wire)..], wire)
  }

  lemma RunStartAppend(run: seq<Json>, e: Json, wire: Wire)
    requires !PlaceOf(e, wire).Stop?
    ensures RunStart(run + [e], wire) == RunStart(run, wire)
  {
    assert (run + [e])[..|run|] == run;
  }

  lemma VisibleStamped(p: Point, wire: Wire, tag: Text)
    requires GoodPoint(p, wire)
    ensures Visible(p.before + [Carrier(p.shape, tag)] + p.after, wire) == |p.before| + 1
  {
    CarrierIsNoTrigger(p.shape, wire, tag);
  }

  /** The trailing run of a stamped list is the old run with the carrier behind it. */
  lemma StampedRun(p: Point, wire: Wire, tag: Text, es: seq<Json>, n: nat, k: nat)
    requires GoodPoint(p, wire)
    requires es == p.before + [Carrier(p.shape, tag)] + p.after && n == Visible(es, wire)
    requires k == RunStart(p.before, wire)
    ensures n == |p.before| + 1 && RunStart(es[..n], wire) == k
    ensures es[k..n] == p.before[k..] + [Carrier(p.shape, tag)] && es[..k] == p.before[..k] && es[n..] == p.after
  {
    hide PlaceOf, CarrierOf, Parse, RunStart;
    VisibleStamped(p, wire, tag);
    CarrierIsRecognised(p.shape, wire, tag);
    RunStartAppend(p.before, Carrier(p.shape, tag), wire);
    assert es[..n] == p.before + [Carrier(p.shape, tag)];
  }

  lemma RunWithCarrier(run: seq<Json>, shape: Shape, wire: Wire, tag: Text)
    requires GoodShape(shape, wire) && Parse(tag).Some?
    ensures CandidatesOf(run + [Carrier(shape, tag)], wire) == CandidatesOf(run, wire) + [Parse(tag).value]
    ensures StripRun(run + [Carrier(shape, tag)], wire) == StripRun(run, wire) + Residue(shape)
  {
    CarrierIsRecognised(shape, wire, tag);
    var c := Carrier(shape, tag);
    FlatMapAppend(run, c, Candidate(wire));
    FlatMapAppend(run, c, Stripper(wire));
    assert Candidate(wire)(c) == [Parse(tag).value];
    assert Stripper(wire)(c) == Residue(shape);
  }

  lemma StampedList(p: Point, wire: Wire, tag: Text, es: seq<Json>, n: nat)
    requires GoodPoint(p, wire) && Parse(tag).Some?
    requires es == p.before + [Carrier(p.shape, tag)] + p.after && n == Visible(es, wire)
    ensures CandidatesOf(es[RunStart(es[..n], wire)..n], wire) == Others(p, wire) + [Parse(tag).value]
    ensures StripList(es, wire) == Remainder(p, wire)
  {
    var k := RunStart(p.before, wire);
    StampedRun(p, wire, tag, es, n, k);
    RunWithCarrier(p.before[k..], p.shape, wire, tag);
    Reassociate(p.before[..k], StripRun(p.before[k..], wire), Residue(p.shape), p.after);
  }

  /** Extraction of a stamped body: the other candidates, then the stamp's own, and a tag-free rest. */
  lemma ExtractStamped(parsed: Json, wire: Wire, tag: Text)
    requires InsertionPoint(parsed, wire).Some? && Parse(tag).Some?
    ensures var p := InsertionPoint(parsed, wire).value;
      var e := Extract(InsertCarrier(parsed, wire, tag).value, wire);
      && e.candidates == Others(p, wire) + [Parse(tag).value]
      && e.stripped == Put(parsed, ListKey(wire), Arr(Remainder(p, wire)))
  {
    var p := InsertionPoint(parsed, wire).value;
    PointIsGood(parsed, wire);
    var es := p.before + [Carrier(p.shape, tag)] + p.after;
    StampedList(p, wire, tag, es, Visible(es, wire));
    ExtractPut(parsed, wire, es);
    PutPut(parsed, ListKey(wire), Arr(es), Arr(Remainder(p, wire)));
  }

  lemma ExtractPut(parsed: Json, wire: Wire, es: seq<Json>)
    requires parsed.Obj?
    ensures var body := Put(parsed, ListKey(wire), Arr(es));
      Extract(body, wire) == ExtractList(body, es, wire)
  {
    GetPut(parsed, ListKey(wire), Arr(es), ListKey(wire));
  }

  // ---- stamp, then verify ----

  lemma FilterKeeps(cs: seq<ChainCheckpoint>, p: ChainCheckpoint -> bool, c: ChainCheckpoint)
    requires c in cs && p(c)
    ensures c in Filter(cs, p) && Filter(cs, p) != []
  {
  }

  /** When a known-version candidate carries the body's digest, only its time can keep the body from being valid. */
  lemma MatchDecides(parsed: Json, wire: Wire, c: Clock, sha: Text -> Text, cp: ChainCheckpoint)
    requires cp in Extract(parsed, wire).candidates
    requires Matches(cp, DigestOf(Extract(parsed, wire).stripped, sha))
    ensures var r := Evaluate(parsed, wire, c, sha);
      && r.selected.Some? && r.selectedMatched == Some(true)
      && Matches(r.selected.value, DigestOf(Extract(parsed, wire).stripped, sha))
      && (IsFresh(cp, c) ==> r.verdict == Valid)
      && (r.verdict == Valid ==> IsFresh(r.selected.value, c))
      && (r.verdict != Valid ==> r.verdict == StaleCheckpoint)
  {
    hide Extract, DigestOf;
    var e := Extract(parsed, wire);
    var digest := DigestOf(e.stripped, sha);
    var known := Filter(e.candidates, KnownVersion());
    FilterKeeps(e.candidates, KnownVersion(), cp);
    var matched := Filter(known, DigestIs(digest, true));
    FilterKeeps(known, DigestIs(digest, true), cp);
    if IsFresh(cp, c) {
      FilterKeeps(matched, FreshAt(c), cp);
    }
  }

  /** The fields a stamp writes besides its digest, and that its tags are legible. */
  predicate Stampable(processor: Text, now: nat) {
    ValidProcessor(processor) && now < Pow10(16) && ToDouble(now) == now
  }

  lemma PlaceholderReads(processor: Text, now: nat)
    requires Stampable(processor, now)
    ensures Parse(Render(ChainCheckpoint(SUPPORTED_VERSION, processor, now, [45], ZERO_DIGEST))).Some?
  {
    hide Render, Parse, ToDouble;
    assert forall i :: 7 <= i < 71 ==> ZERO_DIGEST[i] == 48;
    assert ZERO_DIGEST[..7] == Lit("sha256:");
    RenderParseRoundTrip(ChainCheckpoint(SUPPORTED_VERSION, processor, now, [45], ZERO_DIGEST));
  }

  lemma DigestIsValid(v: Json, sha: Text -> Text)
    requires HexHash(sha)
    ensures ValidDigest(DigestOf(v, sha)) && ValidRequestId(Slice(DigestOf(v, sha), 7, 15))
  {
    var h := sha(JcsStringify(v));
    var d := DigestOf(v, sha);
    assert d[..7] == Lit("sha256:");
    assert forall i :: 7 <= i < 71 ==> d[i] == h[i - 7] && HexChar(h[i - 7]);
    assert forall i :: 0 <= i < 8 ==> d[7..15][i] == h[i];
  }

  lemma StampHasSlot(parsed: Json, wire: Wire, processor: Text, now: nat, sha: Text -> Text)
    requires StampOutbound(parsed, wire, processor, now, sha).Some?
    ensures InsertionPoint(parsed, wire).Some?
  {
    hide InsertionPoint, Render, Extract, DigestOf;
  }

  /** The checkpoint a stamp writes. */
  function StampOf(parsed: Json, wire: Wire, processor: Text, now: nat, sha: Text -> Text): ChainCheckpoint
    requires InsertionPoint(parsed, wire).Some?
  {
    var digest := DigestOf(Put(parsed, ListKey(wire), Arr(Remainder(InsertionPoint(parsed, wire).value, wire))), sha);
    ChainCheckpoint(SUPPORTED_VERSION, processor, now, Slice(digest, 7, 15), digest)
  }

  lemma StampShape(parsed: Json, wire: Wire, processor: Text, now: nat, sha: Text -> Text)
    requires HexHash(sha) && Stampable(processor, now) && InsertionPoint(parsed, wire).Some?
    ensures var cp := StampOf(parsed, wire, processor, now, sha);
      && Parse(Render(cp)) == Some(cp)
      && StampOutbound(parsed, wire, processor, now, sha) == InsertCarrier(parsed, wire, Render(cp))
  {
    hide Extract, Parse, Render, Remainder, Others, DigestOf, InsertionPoint, PutAt;
    PlaceholderReads(processor, now);
    var zero := Render(ChainCheckpoint(SUPPORTED_VERSION, processor, now, [45], ZERO_DIGEST));
    ExtractStamped(parsed, wire, zero);
    var rest := Put(parsed, ListKey(wire), Arr(Remainder(InsertionPoint(parsed, wire).value, wire)));
    DigestIsValid(rest, sha);
    RenderParseRoundTrip(StampOf(parsed, wire, processor, now, sha));
  }

  /** Stamping works exactly on the bodies that have a carrier slot. */
  lemma StampExists(parsed: Json, wire: Wire, processor: Text, now: nat, sha: Text -> Text)
    requires HexHash(sha) && Stampable(processor, now)
    ensures StampOutbound(parsed, wire, processor, now, sha).Some? <==>
      parsed.Obj? && Get(parsed, ListKey(wire)).Some?
      && (Get(parsed, ListKey(wire)).value.Arr? || (wire == Responses && Get(parsed, ListKey(wire)).value.Str?))
  {
    if InsertionPoint(parsed, wire).Some? {
      StampShape(parsed, wire, processor, now, sha);
    }
  }

  /**
   * Stamp, then verify: whatever other carriers the trailing run holds, the stamped body is valid at
   * every reading time inside the skew and recency windows, and at any other time it is still
   * recognised by digest, never as a mismatch, as malformed or as unstamped.
   */
  lemma StampThenVerify(parsed: Json, wire: Wire, processor: Text, now: nat, sha: Text -> Text, c: Clock)
    requires HexHash(sha) && Stampable(processor, now)
    requires StampOutbound(parsed, wire, processor, now, sha).Some?
    ensures var stamped := StampOutbound(parsed, wire, processor, now, sha).value;
      var r := Evaluate(stamped, wire, c, sha);
      && (now - c.now <= c.maxFutureSkew && c.now - now <= c.recentWindow ==> r.verdict == Valid)
      && (r.verdict == Valid || r.verdict == StaleCheckpoint)
      && r.selectedMatched == Some(true)
  {
    hide Extract, Parse, Render, InsertionPoint, Evaluate, DigestOf, Remainder, Others, StampOutbound;
    StampHasSlot(parsed, wire, processor, now, sha);
    StampShape(parsed, wire, processor, now, sha);
    var cp := StampOf(parsed, wire, processor, now, sha);
    ExtractStamped(parsed, wire, Render(cp));
    var stamped := InsertCarrier(parsed, wire, Render(cp)).value;
    var found := Extract(stamped, wire).candidates;
    assert found[|found| - 1] == cp;
    MatchDecides(stamped, wire, c, sha, cp);
  }

  // ---- restamping ----

  lemma CarriesOwnTag(wire: Wire, tag: Text)
    requires Parse(tag).Some?
    ensures wire == OpenAI ==> CarriesWhole(Some(Carrier(Alone(wire), tag)), TEXT)
    ensures wire == Responses ==> CarriesWhole(Some(Carrier(Alone(wire), tag)), INPUT_TEXT)
  {
    AloneFields(wire, tag);
  }

  lemma MergePartsDropsTag(parts: seq<Json>, tag: Text)
    requires Parse(tag).Some?
    ensures MergeParts(Arr(parts + [TextPart(tag)])) == parts
    ensures MergeParts(Str(tag)) == []
  {
    TextPartIsPlain(tag);
    assert (parts + [TextPart(tag)])[..|parts|] == parts;
    assert [TextPart(tag)][..0] == [];
  }

  /** Where a body already stamped takes its next stamp: in the old one's place. */
  lemma RestampPoint(p: Point, wire: Wire, tag: Text) returns (q: Point)
    requires GoodPoint(p, wire) && Parse(tag).Some?
    ensures q == ListPoint(p.before + [Carrier(p.shape, tag)] + p.after, wire)
    ensures q.before == p.before && q.after == p.after
    ensures GoodPoint(q, wire) && Residue(q.shape) == Residue(p.shape)
  {
    var c := Carrier(p.shape, tag);
    var es := p.before + [c] + p.after;
    q := ListPoint(es, wire);
    CarriesOwnTag(wire, tag);
    assert es[..|p.before|] == p.before && es[|p.before|] == c;
    match wire
    case OpenAI =>
    case Responses =>
      VisibleStamped(p, wire, tag);
      AloneFields(wire, tag);
      assert es[..|p.before| + 1][|p.before|] == c && es[|p.before| + 1..] == p.after;
    case Anthropic =>
      RestampAnthropic(p.shape, tag);
  }

  lemma RestampAnthropic(shape: Shape, tag: Text)
    requires GoodShape(shape, Anthropic) && Parse(tag).Some?
    ensures var c := Carrier(shape, tag);
      && IsUser(c) && Get(c, CONTENT).Some?
      && var content := Get(c, CONTENT).value;
      && (content.Str? || content.Arr?)
      && Residue(Merged(c, MergeParts(content))) == Residue(shape)
  {
    match shape
    case Alone(w) =>
      AloneFields(w, tag);
      MergePartsDropsTag([], tag);
    case Merged(m, parts) =>
      MergedFields(m, parts, tag);
      MergePartsDropsTag(parts, tag);
      PutPut(m, CONTENT, Arr(parts + [TextPart(tag)]), Arr(parts));
  }

  /** The message list of a body. */
  function Entries(parsed: Json, wire: Wire): seq<Json> {
    match Get(parsed, ListKey(wire)) case Some(Arr(es)) => es case _ => []
  }

  /** A stamped body has a slot again: the one its carrier fills. */
  lemma RestampSlot(parsed: Json, wire: Wire, tag: Text, p: Point, body: Json) returns (q: Point)
    requires InsertionPoint(parsed, wire) == Some(p) && Parse(tag).Some? && body == PutAt(parsed, wire, p, tag)
    ensures InsertionPoint(body, wire) == Some(q) && GoodPoint(q, wire)
    ensures q.before == p.before && q.after == p.after && Residue(q.shape) == Residue(p.shape)
    ensures Entries(body, wire) == p.before + [Carrier(p.shape, tag)] + p.after
  {
    PointIsGood(parsed, wire);
    var es := p.before + [Carrier(p.shape, tag)] + p.after;
    GetPut(parsed, ListKey(wire), Arr(es), ListKey(wire));
    q := RestampPoint(p, wire, tag);
  }

  /**
   * Restamping replaces: stamping an already stamped body always works, adds no entry and no candidate, and
   * leaves the carrier-stripped body, hence the digest, exactly what stamping once leaves.
   */
  lemma RestampIsStable(parsed: Json, wire: Wire, tag1: Text, tag2: Text, once: Json)
    requires InsertCarrier(parsed, wire, tag1) == Some(once) && Parse(tag1).Some? && Parse(tag2).Some?
    ensures InsertCarrier(once, wire, tag2).Some?
    ensures |Entries(InsertCarrier(once, wire, tag2).value, wire)| == |Entries(once, wire)|
    ensures Extract(InsertCarrier(once, wire, tag2).value, wire).stripped == Extract(once, wire).stripped
    ensures |Extract(InsertCarrier(once, wire, tag2).value, wire).candidates| == |Extract(once, wire).candidates|
  {
    hide Extract, Parse;
    var p := InsertionPoint(parsed, wire).value;
    var q := RestampSlot(parsed, wire, tag1, p, once);
    var twice := PutAt(once, wire, q, tag2);
    var r := RestampSlot(once, wire, tag2, q, twice);
    ExtractStamped(parsed, wire, tag1);
    ExtractStamped(once, wire, tag2);
    PutPut(parsed, ListKey(wire), Arr(p.before + [Carrier(p.shape, tag1)] + p.after), Arr(Remainder(p, wire)));
  }

  /** So the digest a body is stamped with survives any number of restamps by other processors. */
  lemma RestampKeepsDigest(parsed: Json, wire: Wire, p1: Text, t1: nat, p2: Text, t2: nat, sha: Text -> Text,
                           once: Json)
    requires HexHash(sha) && Stampable(p1, t1) && Stampable(p2, t2)
    requires StampOutbound(parsed, wire, p1, t1, sha) == Some(once)
    ensures StampOutbound(once, wire, p2, t2, sha).Some?
    ensures DigestOf(Extract(StampOutbound(once, wire, p2, t2, sha).value, wire).stripped, sha) ==
            DigestOf(Extract(once, wire).stripped, sha)
  {
    hide Extract, Parse, Render, DigestOf, StampOutbound, Entries;
    StampHasSlot(parsed, wire, p1, t1, sha);
    StampShape(parsed, wire, p1, t1, sha);
    var tag1 := Render(StampOf(parsed, wire, p1, t1, sha));
    var q := RestampSlot(parsed, wire, tag1, InsertionPoint(parsed, wire).value, once);
    StampShape(once, wire, p2, t2, sha);
    RestampIsStable(parsed, wire, tag1, Render(StampOf(once, wire, p2, t2, sha)), once);
  }

  // ---- a match names the body ----

  ghost predicate InjectiveHash(sha: Text -> Text) {
    forall a, b :: sha(a) == sha(b) ==> a == b
  }

  lemma DigestNames(a: Json, b: Json, sha: Text -> Text)
    requires InjectiveHash(sha) && WellFormed(a) && WellFormed(b)
    requires DigestOf(a, sha) == DigestOf(b, sha)
    ensures Denote(a) == Denote(b)
  {
    CutHead(Lit("sha256:"), sha(JcsStringify(a)), sha(JcsStringify(b)));
    PrintsAlikeIffSameValue(a, b);
  }

  predicate AllWellFormed(es: seq<Json>) {
    forall i :: 0 <= i < |es| ==> WellFormed(es[i])
  }

  lemma StripEntryWellFormed(entry: Json, wire: Wire)
    requires WellFormed(entry)
    ensures AllWellFormed(StripEntry(entry, wire))
  {
    if CarrierOf(entry, wire).Some? && PlaceOf(entry, wire).part.Some? {
      SlotPart(entry, wire);
      GetWellFormed(entry, CONTENT);
      PutWellFormed(entry, CONTENT, Arr(RemoveAt(Get(entry, CONTENT).value.elems, PlaceOf(entry, wire).part.value)));
    }
  }

  lemma {:induction false} StripRunWellFormed(run: seq<Json>, wire: Wire)
    requires AllWellFormed(run)
    ensures AllWellFormed(StripRun(run, wire))
  {
    if run != [] {
      StripEntryWellFormed(run[0], wire);
      StripRunWellFormed(run[1..], wire);
    }
  }

  lemma StripListWellFormed(entries: seq<Json>, wire: Wire)
    requires AllWellFormed(entries)
    ensures WellFormed(Arr(StripList(entries, wire)))
  {
    var n := Visible(entries, wire);
    var k := RunStart(entries[..n], wire);
    StripRunWellFormed(entries[k..n], wire);
    assert AllWellFormed(entries[..k] + StripRun(entries[k..n], wire) + entries[n..]);
  }

  /** Taking carriers out of a JSON value leaves a JSON value. */
  lemma StrippedWellFormed(parsed: Json, wire: Wire)
    requires WellFormed(parsed)
    ensures WellFormed(Extract(parsed, wire).stripped)
  {
    if parsed.Obj? && Get(parsed, ListKey(wire)).Some? {
      var v := Get(parsed, ListKey(wire)).value;
      if v.Arr? {
        GetWellFormed(parsed, ListKey(wire));
        StripListWellFormed(v.elems, wire);
        PutWellFormed(parsed, ListKey(wire), Arr(StripList(v.elems, wire)));
      } else {
        PutWellFormed(parsed, INPUT, Str([]));
      }
    }
  }

  lemma MatchedDigest(parsed: Json, wire: Wire, c: Clock, sha: Text -> Text, r: Context)
    requires r == Evaluate(parsed, wire, c, sha) && r.selectedMatched == Some(true)
    ensures r.selected.Some? && r.selected.value.digest == DigestOf(Extract(parsed, wire).stripped, sha)
  {
    hide Extract, DigestOf;
  }

  /**
   * First processor wins only for the same body: when a received body is evaluated as matched by a
   * checkpoint carrying the digest of a sent body, the received body without its carriers is, as a JSON
   * value, the sent body without its carriers.
   */
  lemma MatchNamesBody(sent: Json, received: Json, wire: Wire, sha: Text -> Text, c: Clock, r: Context)
    requires InjectiveHash(sha) && WellFormed(sent) && WellFormed(received)
    requires r == Evaluate(received, wire, c, sha) && r.selectedMatched == Some(true)
    requires r.selected.Some? && r.selected.value.digest == DigestOf(Extract(sent, wire).stripped, sha)
    ensures Denote(Extract(received, wire).stripped) == Denote(Extract(sent, wire).stripped)
  {
    MatchedDigest(received, wire, c, sha, r);
    StrippedWellFormed(sent, wire);
    StrippedWellFormed(received, wire);
    DigestNames(Extract(received, wire).stripped, Extract(sent, wire).stripped, sha);
  }
}
