/** What extraction finds and leaves, told by the wire shapes of the entries alone. */
module Recognition {
  import opened Texts
  import opened Seqs
  import opened Json
  import opened Checkpoint
  import opened Names
  import opened Carriers
  import opened Stamping
  import opened WireShapes
  import opened Insertion

  /** The words a user turn offers as a tag: all it says or, on anthropic, its last part among several. */
  predicate Offers(e: Json, wire: Wire, words: Text) {
    || SaysOnly(e, TextKind(wire), words)
    || (wire == Anthropic && |Parts(e)| >= 2 && TextOnly(Parts(e)[|Parts(e)| - 1], Lit("text"), words))
  }

  /** The turns recognition reads from the end of a list; responses stops at one that offers nothing. */
  ghost predicate InRun(e: Json, wire: Wire) {
    IsUserTurn(e, wire) && (wire == Responses ==> exists words :: Offers(e, wire, words))
  }

  /** A turn without its tag: gone when it said nothing else, or without its last part. */
  predicate Left(e: Json, left: seq<Json>) {
    if |Parts(e)| < 2 then left == []
    else |left| == 1 && SameButFor(e, left[0], Lit("content")) && HasParts(left[0])
         && Parts(left[0]) == Parts(e)[..|Parts(e)| - 1]
  }

  /** What one turn contributes: a checkpoint, a malformed tag, or neither. */
  ghost predicate Yields(e: Json, wire: Wire, found: seq<ChainCheckpoint>, bad: nat, left: seq<Json>) {
    if exists words :: Offers(e, wire, words) && Parse(words).Some?
    then
      && bad == 0 && Left(e, left)
      && exists words :: Offers(e, wire, words) && Parse(words).Some? && found == [Parse(words).value]
    else
      && found == [] && left == [e]
      && bad == if exists words :: Offers(e, wire, words) && Lit("<bili-chain") <= words then 1 else 0
  }

  /** What the turns of a run contribute, one after the other. */
  ghost predicate RunYields(run: seq<Json>, wire: Wire, found: seq<ChainCheckpoint>, bad: nat, left: seq<Json>) {
    if run == [] then found == [] && bad == 0 && left == []
    else
      exists f, b: nat, l :: Yields(run[0], wire, f, b, l) && f <= found && b <= bad && l <= left
        && RunYields(run[1..], wire, found[|f|..], bad - b, left[|l|..])
  }

  lemma LastPartOffers(e: Json)
    requires HasRole(e, Lit("user"))
    ensures var place := PlaceOf(e, Anthropic);
      && !place.Stop?
      && (place.Slot? ==> Offers(e, Anthropic, place.text))
      && (forall words :: Offers(e, Anthropic, words) ==> place.Slot? && place.text == words)
  {
    SameWords();
    WholeText(e, TEXT);
  }

  lemma WholeOffers(e: Json)
    requires HasRole(e, Lit("user"))
    ensures var place := PlaceOf(e, OpenAI);
      && !place.Stop?
      && (place.Slot? ==> Offers(e, OpenAI, place.text))
      && (forall words :: Offers(e, OpenAI, words) ==> place.Slot? && place.text == words)
  {
    hide SaysOnly;
    SameWords();
    WholeText(e, TEXT);
  }

  lemma ItemOffers(e: Json)
    requires IsUserTurn(e, Responses)
    ensures var place := PlaceOf(e, Responses);
      && (place.Slot? ==> Offers(e, Responses, place.text))
      && (forall words :: Offers(e, Responses, words) ==> place.Slot? && place.text == words)
      && (place.Slot? || place.Stop?)
  {
    hide SaysOnly;
    SameWords();
    WholeText(e, INPUT_TEXT);
  }

  lemma OfferIsSlot(e: Json, wire: Wire)
    requires IsUserTurn(e, wire)
    ensures var place := PlaceOf(e, wire);
      && (place.Slot? ==> Offers(e, wire, place.text))
      && (forall words :: Offers(e, wire, words) ==> place.Slot? && place.text == words)
      && (place.Stop? <==> !InRun(e, wire))
  {
    hide PlaceOf, Offers;
    match wire
    case Anthropic => LastPartOffers(e);
    case OpenAI => WholeOffers(e);
    case Responses => ItemOffers(e);
  }

  lemma StopIsOutside(e: Json, wire: Wire)
    ensures PlaceOf(e, wire).Stop? <==> !InRun(e, wire)
  {
    SameWords();
    if IsUserTurn(e, wire) {
      OfferIsSlot(e, wire);
    }
  }

  lemma SlotParts(e: Json, wire: Wire)
    requires PlaceOf(e, wire).Slot?
    ensures e.Obj? && (PlaceOf(e, wire).part.Some? <==> |Parts(e)| >= 2)
    ensures |Parts(e)| >= 2 ==> PlaceOf(e, wire).part.value == |Parts(e)| - 1 && Get(e, CONTENT) == Some(Arr(Parts(e)))
  {
    SameWords();
  }

  lemma StrippedIsLeft(e: Json, wire: Wire)
    requires CarrierOf(e, wire).Some?
    ensures Left(e, StripEntry(e, wire))
  {
    hide Parse, PlaceOf, SameButFor;
    SameWords();
    SlotParts(e, wire);
    if |Parts(e)| >= 2 {
      var kept := RemoveAt(Parts(e), |Parts(e)| - 1);
      assert kept == Parts(e)[..|Parts(e)| - 1];
      PutSameButFor(e, CONTENT, Arr(kept));
    }
  }

  lemma TagPrefix()
    ensures CHAIN_PREFIX == Lit("<bili-chain")
  {
  }

  lemma EntryYields(e: Json, wire: Wire)
    requires InRun(e, wire)
    ensures Yields(e, wire, Candidate(wire)(e), |MalformedTag(wire)(e)|, StripEntry(e, wire))
  {
    hide Parse, PlaceOf, Left, Offers;
    OfferIsSlot(e, wire);
    TagPrefix();
    if CarrierOf(e, wire).Some? {
      StrippedIsLeft(e, wire);
    }
  }

  lemma {:induction false} RunReads(run: seq<Json>, wire: Wire)
    requires forall e :: e in run ==> InRun(e, wire)
    ensures RunYields(run, wire, CandidatesOf(run, wire), MalformedOf(run, wire), StripRun(run, wire))
  {
    if run != [] {
      hide Yields, InRun, StripEntry, CarrierOf, Parse, PlaceOf;
      var e := run[0];
      EntryYields(e, wire);
      RunReads(run[1..], wire);
      var f, b, l := Candidate(wire)(e), |MalformedTag(wire)(e)|, StripEntry(e, wire);
      Behind(f, CandidatesOf(run[1..], wire));
      Behind(l, StripRun(run[1..], wire));
      assert Yields(e, wire, f, b, l);
    }
  }

  lemma {:induction false} RunStartsAfter(front: seq<Json>, run: seq<Json>, wire: Wire)
    requires forall e :: e in run ==> InRun(e, wire)
    requires front != [] ==> !InRun(front[|front| - 1], wire)
    ensures RunStart(front + run, wire) == |front|
  {
    hide InRun, PlaceOf;
    var es := front + run;
    if run == [] {
      assert es == front;
      if front != [] {
        StopIsOutside(front[|front| - 1], wire);
      }
    } else {
      var last := run[|run| - 1];
      assert es[|es| - 1] == last && es[..|es| - 1] == front + run[..|run| - 1];
      StopIsOutside(last, wire);
      RunStartsAfter(front, run[..|run| - 1], wire);
    }
  }

  /**
   * The entries cut in three: the turns recognition reads, what stands in front of them and, on responses, the
   * compaction trigger it looks past.
   */
  ghost predicate Cut(es: seq<Json>, wire: Wire, front: seq<Json>, run: seq<Json>, after: seq<Json>) {
    && es == front + run + after
    && (forall e :: e in run ==> InRun(e, wire))
    && (front != [] ==> !InRun(front[|front| - 1], wire))
    && (if wire == Responses && es != [] && IsCompactionTrigger(es[|es| - 1]) then |after| == 1 else after == [])
  }

  lemma CutIsSeen(es: seq<Json>, wire: Wire, front: seq<Json>, run: seq<Json>, after: seq<Json>)
    requires Cut(es, wire, front, run, after)
    ensures var n := Visible(es, wire);
      RunStart(es[..n], wire) == |front| && es[|front|..n] == run && es[..|front|] == front && es[n..] == after
  {
    hide InRun;
    SameWords();
    var n := Visible(es, wire);
    assert n == |front + run|;
    assert es[..n] == front + run;
    RunStartsAfter(front, run, wire);
  }

  /**
   * Extraction reads exactly the trailing user turns: it finds their checkpoints in order, counts their
   * malformed tags, takes each carrier out, and leaves every other entry and every other key alone.
   */
  lemma ExtractReadsTheRun(parsed: Json, wire: Wire, es: seq<Json>, front: seq<Json>, run: seq<Json>,
                           after: seq<Json>) returns (left: seq<Json>)
    requires parsed.Obj? && Get(parsed, EntriesKey(wire)) == Some(Arr(es)) && Cut(es, wire, front, run, after)
    ensures var r := Extract(parsed, wire);
      && RunYields(run, wire, r.candidates, r.malformed, left)
      && (r.candidates == [] ==> r.stripped == parsed)
      && (r.candidates != [] ==>
            SameButFor(parsed, r.stripped, EntriesKey(wire))
            && Get(r.stripped, EntriesKey(wire)) == Some(Arr(front + left + after)))
  {
    hide Cut, RunYields, CandidatesOf, MalformedOf, SameButFor, StripRun, Visible;
    SameWords();
    left := StripRun(run, wire);
    CutIsSeen(es, wire, front, run, after);
    CutRuns(es, wire, front, run, after);
    PutSameButFor(parsed, ListKey(wire), Arr(StripList(es, wire)));
    assert StripList(es, wire) == front + left + after;
  }

  lemma CutRuns(es: seq<Json>, wire: Wire, front: seq<Json>, run: seq<Json>, after: seq<Json>)
    requires Cut(es, wire, front, run, after)
    ensures RunYields(run, wire, CandidatesOf(run, wire), MalformedOf(run, wire), StripRun(run, wire))
  {
    RunReads(run, wire);
  }

  /** Every list can be cut so. */
  lemma {:induction false} CutExists(es: seq<Json>, wire: Wire) returns (front: seq<Json>, run: seq<Json>, after: seq<Json>)
    ensures Cut(es, wire, front, run, after)
  {
    hide InRun;
    SameWords();
    after := if wire == Responses && es != [] && IsCompactionTrigger(es[|es| - 1]) then [es[|es| - 1]] else [];
    front, run := es[..|es| - |after|], [];
    while front != [] && InRun(front[|front| - 1], wire)
      invariant es == front + run + after
      invariant forall e :: e in run ==> InRun(e, wire)
    {
      front, run := front[..|front| - 1], [front[|front| - 1]] + run;
    }
  }

  /** A responses body of plain words is one turn that says them; taking a checkpoint out leaves no words. */
  lemma ExtractReadsWords(parsed: Json, s: Text)
    requires parsed.Obj? && Get(parsed, Lit("input")) == Some(Str(s))
    ensures var r := Extract(parsed, Responses);
      match Parse(s)
      case Some(cp) =>
        && r.candidates == [cp] && r.malformed == 0
        && SameButFor(parsed, r.stripped, Lit("input")) && Get(r.stripped, Lit("input")) == Some(Str([]))
      case None =>
        && r.candidates == [] && r.stripped == parsed
        && r.malformed == if Lit("<bili-chain") <= s then 1 else 0
  {
    hide SameButFor;
    SameWords();
    TagPrefix();
    PutSameButFor(parsed, INPUT, Str([]));
  }
}
