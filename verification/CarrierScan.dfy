/** The loops of carrier extraction: the backwards scan, the drop map and the rebuild. */
module CarrierScan {
  import opened Texts
  import opened Seqs
  import opened Json
  import opened Checkpoint
  import opened Names
  import opened Carriers

  /** A carrier slot that was hit: the whole entry, or one of its parts. */
  datatype Hit = Hit(messageIndex: nat, part: Option<nat>, text: Text)

  function HitAt(entries: seq<Json>, i: nat, wire: Wire): seq<Hit>
    requires i < |entries|
  {
    match PlaceOf(entries[i], wire)
    case Slot(part, text) => [Hit(i, part, text)]
    case _ => []
  }

  /** The hits of entries k..n, oldest first. */
  function HitsOf(entries: seq<Json>, k: nat, n: nat, wire: Wire): seq<Hit>
    requires k <= n <= |entries|
  {
    if k == n then [] else HitsOf(entries, k, n - 1, wire) + HitAt(entries, n - 1, wire)
  }

  lemma HitsLast(entries: seq<Json>, k: nat, n: nat, wire: Wire)
    requires k < n <= |entries|
    ensures HitsOf(entries, k, n, wire) == HitsOf(entries, k, n - 1, wire) + HitAt(entries, n - 1, wire)
    ensures HitsOf(entries, k, k, wire) == []
  {
    hide HitAt;
  }

  lemma {:induction false} HitsFront(entries: seq<Json>, k: nat, n: nat, wire: Wire)
    requires k < n <= |entries|
    ensures HitsOf(entries, k, n, wire) == HitAt(entries, k, wire) + HitsOf(entries, k + 1, n, wire)
  {
    HitsLast(entries, k, n, wire);
    if k + 1 < n {
      hide HitsOf, HitAt;
      HitsLast(entries, k + 1, n, wire);
      HitsFront(entries, k, n - 1, wire);
      Associate(HitAt(entries, k, wire), HitsOf(entries, k + 1, n - 1, wire), HitAt(entries, n - 1, wire));
    } else {
      assert HitsOf(entries, k + 1, n, wire) == [];
    }
  }

  lemma {:induction false} RunStartSkips(entries: seq<Json>, i: nat, n: nat, wire: Wire)
    requires i <= n <= |entries|
    requires forall j :: i <= j < n ==> !PlaceOf(entries[j], wire).Stop?
    ensures RunStart(entries[..n], wire) == RunStart(entries[..i], wire)
  {
    if i < n {
      assert entries[..n][..n - 1] == entries[..n - 1];
      RunStartSkips(entries, i, n - 1, wire);
    }
  }

  /** The trailing user run, scanned backwards and stopped by the first entry that is not part of it. */
  method TrailingUserHits(entries: seq<Json>, wire: Wire) returns (out: seq<Hit>)
    ensures var n := Visible(entries, wire);
      out == HitsOf(entries, RunStart(entries[..n], wire), n, wire)
  {
    hide PlaceOf;
    var n := Visible(entries, wire);
    out := [];
    var i := n;
    while i > 0
      invariant 0 <= i <= n
      invariant forall j :: i <= j < n ==> !PlaceOf(entries[j], wire).Stop?
      invariant out == HitsOf(entries, i, n, wire)
    {
      var place := PlaceOf(entries[i - 1], wire);
      RunStartSkips(entries, i, n, wire);
      if place.Stop? {
        return;
      }
      HitsFront(entries, i - 1, n, wire);
      i := i - 1;
      if place.Slot? {
        out := [Hit(i, place.part, place.text)] + out;
      }
    }
    RunStartSkips(entries, 0, n, wire);
  }

  // ---- what the hit loop accumulates ----

  function FoundIn(hits: seq<Hit>): seq<ChainCheckpoint> {
    if hits == [] then []
    else FoundIn(hits[..|hits| - 1]) + (match Parse(hits[|hits| - 1].text) case Some(cp) => [cp] case None => [])
  }

  function BrokenIn(hits: seq<Hit>): nat {
    if hits == [] then 0
    else
      var t := hits[|hits| - 1].text;
      BrokenIn(hits[..|hits| - 1]) + if StartsWith(t, CHAIN_PREFIX) && Parse(t).None? then 1 else 0
  }

  lemma FoundAppend(hits: seq<Hit>, h: Hit)
    ensures FoundIn(hits + [h]) == FoundIn(hits) + (match Parse(h.text) case Some(cp) => [cp] case None => [])
    ensures BrokenIn(hits + [h]) ==
      BrokenIn(hits) + if StartsWith(h.text, CHAIN_PREFIX) && Parse(h.text).None? then 1 else 0
  {
    assert (hits + [h])[..|hits|] == hits;
  }

  lemma TagHasPrefix(t: Text)
    ensures Parse(t).Some? ==> StartsWith(t, CHAIN_PREFIX)
  {
    assert CHAIN_PREFIX == TAG_OPEN[..11];
    if Parse(t).Some? {
      assert t[..11] == t[..12][..11];
    }
  }

  lemma FoundHere(hits: seq<Hit>, entries: seq<Json>, i: nat, wire: Wire)
    requires i < |entries|
    ensures FoundIn(hits + HitAt(entries, i, wire)) == FoundIn(hits) + Candidate(wire)(entries[i])
    ensures BrokenIn(hits + HitAt(entries, i, wire)) == BrokenIn(hits) + |MalformedTag(wire)(entries[i])|
  {
    match PlaceOf(entries[i], wire)
    case Slot(part, text) => FoundAppend(hits, Hit(i, part, text));
    case _ => assert hits + [] == hits;
  }

  lemma MatchesStep(hits: seq<Hit>, run: seq<Json>, entries: seq<Json>, i: nat, wire: Wire)
    requires i < |entries|
    requires FoundIn(hits) == CandidatesOf(run, wire) && BrokenIn(hits) == MalformedOf(run, wire)
    ensures FoundIn(hits + HitAt(entries, i, wire)) == CandidatesOf(run + [entries[i]], wire)
    ensures BrokenIn(hits + HitAt(entries, i, wire)) == MalformedOf(run + [entries[i]], wire)
  {
    FoundHere(hits, entries, i, wire);
    FlatMapAppend(run, entries[i], Candidate(wire));
    FlatMapAppend(run, entries[i], MalformedTag(wire));
  }

  /** Reading the hits of entries k..n is reading the run. */
  predicate HitsRead(entries: seq<Json>, k: nat, n: nat, wire: Wire)
    requires k <= n <= |entries|
  {
    && FoundIn(HitsOf(entries, k, n, wire)) == CandidatesOf(entries[k..n], wire)
    && BrokenIn(HitsOf(entries, k, n, wire)) == MalformedOf(entries[k..n], wire)
  }

  lemma NoHitsRead(entries: seq<Json>, k: nat, wire: Wire)
    requires k <= |entries|
    ensures HitsRead(entries, k, k, wire)
  {
    assert entries[k..k] == [];
  }

  lemma OneMoreRead(entries: seq<Json>, k: nat, n: nat, wire: Wire)
    requires k < n <= |entries| && HitsRead(entries, k, n - 1, wire)
    ensures HitsRead(entries, k, n, wire)
  {
    hide HitsOf, HitAt, FoundIn, BrokenIn, CandidatesOf, MalformedOf;
    HitsLast(entries, k, n, wire);
    MatchesStep(HitsOf(entries, k, n - 1, wire), entries[k..n - 1], entries, n - 1, wire);
    SliceAppend(entries, k, n);
  }

  lemma {:induction false} HitsMatchRun(entries: seq<Json>, k: nat, n: nat, wire: Wire)
    requires k <= n <= |entries|
    ensures HitsRead(entries, k, n, wire)
  {
    hide HitsRead;
    if k < n {
      HitsMatchRun(entries, k, n - 1, wire);
      OneMoreRead(entries, k, n, wire);
    } else {
      NoHitsRead(entries, k, wire);
    }
  }

  /** The drop map: which entries lose something, and which part each of them loses. */
  ghost predicate DropsAre(drops: map<nat, set<nat>>, entries: seq<Json>, k: nat, n: nat, wire: Wire)
    requires k <= n <= |entries|
  {
    forall i :: 0 <= i < |entries| ==>
      && (i in drops <==> k <= i < n && CarrierOf(entries[i], wire).Some?)
      && (i in drops ==> drops[i] == PartSet(PlaceOf(entries[i], wire)))
  }

  function PartSet(p: Place): set<nat> {
    match p case Slot(Some(j), _) => {j} case _ => {}
  }

  ghost predicate DropsSoFar(drops: map<nat, set<nat>>, hits: seq<Hit>, h: nat)
    requires h <= |hits|
  {
    && (forall i :: i in drops ==> exists j :: 0 <= j < h && hits[j].messageIndex == i)
    && (forall j :: 0 <= j < h && Parse(hits[j].text).Some? ==>
          hits[j].messageIndex in drops && drops[hits[j].messageIndex] == PartsOf(hits[j]))
    && (forall j :: 0 <= j < h && Parse(hits[j].text).None? ==> hits[j].messageIndex !in drops)
  }

  function PartsOf(h: Hit): set<nat> {
    match h.part case Some(j) => {j} case None => {}
  }

  ghost predicate DistinctHits(hits: seq<Hit>) {
    forall i, j :: 0 <= i < j < |hits| ==> hits[i].messageIndex < hits[j].messageIndex
  }

  /** One more hit: its entry is new to the map, and is recorded when its tag parses. */
  lemma DropsStep(drops: map<nat, set<nat>>, hits: seq<Hit>, h: nat)
    requires DistinctHits(hits) && h < |hits| && DropsSoFar(drops, hits, h)
    ensures hits[h].messageIndex !in drops
    ensures DropsSoFar(if Parse(hits[h].text).Some? then drops[hits[h].messageIndex := PartsOf(hits[h])] else drops,
                       hits, h + 1)
  {
    hide Parse, PartsOf;
  }

  /** The hit loop: checkpoints collected, broken tags counted, drops recorded. */
  method ClassifyHits(hits: seq<Hit>) returns (found: seq<ChainCheckpoint>, broken: nat, drops: map<nat, set<nat>>)
    requires DistinctHits(hits)
    ensures found == FoundIn(hits) && broken == BrokenIn(hits)
    ensures DropsSoFar(drops, hits, |hits|)
  {
    hide Parse, FoundIn, BrokenIn, DropsSoFar;
    found, broken, drops := [], 0, map[];
    ClassifyNone(hits);
    var h := 0;
    while h < |hits|
      invariant 0 <= h <= |hits|
      invariant found == FoundIn(hits[..h]) && broken == BrokenIn(hits[..h])
      invariant DropsSoFar(drops, hits, h)
    {
      var hit := hits[h];
      assert hits[..h + 1] == hits[..h] + [hit];
      FoundAppend(hits[..h], hit);
      TagHasPrefix(hit.text);
      DropsStep(drops, hits, h);
      assert found + [] == found;
      if StartsWith(hit.text, CHAIN_PREFIX) {
        var cp := Parse(hit.text);
        if cp.Some? {
          found := found + [cp.value];
          // On these wires an entry is hit once, so the map never holds it yet.
          var parts: set<nat> := {};
          if hit.part.Some? {
            parts := parts + {hit.part.value};
          }
          assert parts == PartsOf(hit);
          drops := drops[hit.messageIndex := parts];
        } else {
          broken := broken + 1;
        }
      }
      h := h + 1;
    }
    assert hits[..|hits|] == hits;
  }

  lemma ClassifyNone(hits: seq<Hit>)
    ensures FoundIn(hits[..0]) == [] && BrokenIn(hits[..0]) == 0 && DropsSoFar(map[], hits, 0)
  {
  }

  // ---- the rebuild ----

  /** partsArr.filter((_, j) => !parts.has(j)). */
  function WithoutIndices(ps: seq<Json>, parts: set<nat>): seq<Json> {
    if ps == [] then []
    else WithoutIndices(ps[..|ps| - 1], parts) + if |ps| - 1 in parts then [] else [ps[|ps| - 1]]
  }

  lemma {:induction false} WithoutOutside(ps: seq<Json>, parts: set<nat>)
    requires forall j :: j in parts ==> j >= |ps|
    ensures WithoutIndices(ps, parts) == ps
  {
    if ps != [] {
      WithoutOutside(ps[..|ps| - 1], parts);
    }
  }

  lemma WithoutLast(ps: seq<Json>)
    requires ps != []
    ensures WithoutIndices(ps, {|ps| - 1}) == RemoveAt(ps, |ps| - 1)
  {
    WithoutOutside(ps[..|ps| - 1], {|ps| - 1});
  }

  /** What the rebuild writes for entry i. */
  function Rewritten(entries: seq<Json>, i: nat, drops: map<nat, set<nat>>): seq<Json>
    requires i < |entries|
  {
    if i !in drops then [entries[i]]
    else if drops[i] != {} && entries[i].Obj? && Get(entries[i], CONTENT).Some? && Get(entries[i], CONTENT).value.Arr?
    then
      var kept := WithoutIndices(Get(entries[i], CONTENT).value.elems, drops[i]);
      if kept == [] then [] else [Put(entries[i], CONTENT, Arr(kept))]
    else []
  }

  function StripFrom(entries: seq<Json>, i: nat, k: nat, n: nat, wire: Wire): seq<Json>
    requires i < |entries|
  {
    if k <= i < n then StripEntry(entries[i], wire) else [entries[i]]
  }

  lemma RewrittenIsStripped(entries: seq<Json>, i: nat, k: nat, n: nat, wire: Wire, drops: map<nat, set<nat>>)
    requires i < |entries| && k <= n <= |entries|
    requires i in drops <==> k <= i < n && CarrierOf(entries[i], wire).Some?
    requires i in drops ==> drops[i] == PartSet(PlaceOf(entries[i], wire))
    ensures Rewritten(entries, i, drops) == StripFrom(entries, i, k, n, wire)
  {
    hide PlaceOf, Parse;
    if i in drops && PlaceOf(entries[i], wire).part.Some? {
      SlotPart(entries[i], wire);
      WithoutLast(Get(entries[i], CONTENT).value.elems);
    }
  }

  function RebuiltTo(entries: seq<Json>, i: nat, k: nat, n: nat, wire: Wire): seq<Json>
    requires i <= |entries|
  {
    if i == 0 then [] else RebuiltTo(entries, i - 1, k, n, wire) + StripFrom(entries, i - 1, k, n, wire)
  }

  lemma {:induction false} RebuiltBefore(entries: seq<Json>, i: nat, k: nat, n: nat, wire: Wire)
    requires i <= k <= n <= |entries|
    ensures RebuiltTo(entries, i, k, n, wire) == entries[..i]
  {
    if i > 0 {
      RebuiltBefore(entries, i - 1, k, n, wire);
      SliceAppend(entries, 0, i);
    }
  }

  lemma {:induction false} RebuiltRun(entries: seq<Json>, i: nat, k: nat, n: nat, wire: Wire)
    requires k <= i <= n <= |entries|
    ensures RebuiltTo(entries, i, k, n, wire) == entries[..k] + StripRun(entries[k..i], wire)
  {
    if i == k {
      RebuiltBefore(entries, i, k, n, wire);
    } else {
      RebuiltRun(entries, i - 1, k, n, wire);
      SliceAppend(entries, k, i);
      FlatMapAppend(entries[k..i - 1], entries[i - 1], Stripper(wire));
      Associate(entries[..k], StripRun(entries[k..i - 1], wire), StripEntry(entries[i - 1], wire));
    }
  }

  lemma {:induction false} RebuiltIs(entries: seq<Json>, i: nat, k: nat, n: nat, wire: Wire)
    requires k <= n <= i <= |entries|
    ensures RebuiltTo(entries, i, k, n, wire) == entries[..k] + StripRun(entries[k..n], wire) + entries[n..i]
  {
    if i == n {
      RebuiltRun(entries, i, k, n, wire);
    } else {
      RebuiltIs(entries, i - 1, k, n, wire);
      SliceAppend(entries, n, i);
    }
  }

  /** Every hit points at a slot of the range. */
  lemma {:induction false} HitsInRange(entries: seq<Json>, k: nat, n: nat, wire: Wire, j: nat)
    requires k <= n <= |entries| && j < |HitsOf(entries, k, n, wire)|
    ensures HitIn(HitsOf(entries, k, n, wire)[j], entries, k, n, wire)
  {
    if k < n {
      HitsLast(entries, k, n, wire);
      var before, here := HitsOf(entries, k, n - 1, wire), HitAt(entries, n - 1, wire);
      if j < |before| {
        hide HitsOf, HitAt;
        HitsInRange(entries, k, n - 1, wire, j);
      } else {
        hide HitsOf;
        assert (before + here)[j] == here[j - |before|];
      }
    }
  }

  /** The hits are in order, each entry at most once. */
  lemma {:induction false} HitsDistinct(entries: seq<Json>, k: nat, n: nat, wire: Wire)
    requires k <= n <= |entries|
    ensures DistinctHits(HitsOf(entries, k, n, wire))
  {
    if k < n {
      hide HitsOf;
      HitsDistinct(entries, k, n - 1, wire);
      HitsLast(entries, k, n, wire);
      var before := HitsOf(entries, k, n - 1, wire);
      forall j | 0 <= j < |before| ensures before[j].messageIndex < n - 1 {
        HitsInRange(entries, k, n - 1, wire, j);
      }
    }
  }

  /** Every slot of the range is hit. */
  lemma {:induction false} HitsCover(entries: seq<Json>, k: nat, n: nat, wire: Wire, i: nat) returns (j: nat)
    requires k <= i < n <= |entries| && PlaceOf(entries[i], wire).Slot?
    ensures j < |HitsOf(entries, k, n, wire)| && HitsOf(entries, k, n, wire)[j].messageIndex == i
  {
    hide PlaceOf;
    if i == n - 1 {
      j := |HitsOf(entries, k, n - 1, wire)|;
    } else {
      j := HitsCover(entries, k, n - 1, wire, i);
    }
  }

  lemma DropIsCarrier(entries: seq<Json>, k: nat, n: nat, wire: Wire, hits: seq<Hit>, drops: map<nat, set<nat>>, i: nat)
    requires k <= n <= |entries| && hits == HitsOf(entries, k, n, wire)
    requires DropsSoFar(drops, hits, |hits|) && i in drops
    ensures k <= i < n && CarrierOf(entries[i], wire).Some? && drops[i] == PartSet(PlaceOf(entries[i], wire))
  {
    hide PlaceOf, Parse;
    var j :| 0 <= j < |hits| && hits[j].messageIndex == i;
    HitsInRange(entries, k, n, wire, j);
  }

  lemma CarrierIsDropped(entries: seq<Json>, k: nat, n: nat, wire: Wire, hits: seq<Hit>, drops: map<nat, set<nat>>,
                         i: nat)
    requires k <= i < n <= |entries| && hits == HitsOf(entries, k, n, wire)
    requires DropsSoFar(drops, hits, |hits|) && CarrierOf(entries[i], wire).Some?
    ensures i in drops
  {
    hide PlaceOf, Parse;
    var j := HitsCover(entries, k, n, wire, i);
    HitsInRange(entries, k, n, wire, j);
  }

  lemma DropsFromHits(entries: seq<Json>, k: nat, n: nat, wire: Wire, hits: seq<Hit>, drops: map<nat, set<nat>>)
    requires k <= n <= |entries| && hits == HitsOf(entries, k, n, wire)
    requires DropsSoFar(drops, hits, |hits|)
    ensures DropsAre(drops, entries, k, n, wire)
  {
    forall i | 0 <= i < |entries|
      ensures i in drops <==> k <= i < n && CarrierOf(entries[i], wire).Some?
      ensures i in drops ==> drops[i] == PartSet(PlaceOf(entries[i], wire))
    {
      if i in drops {
        DropIsCarrier(entries, k, n, wire, hits, drops, i);
      } else if k <= i < n && CarrierOf(entries[i], wire).Some? {
        CarrierIsDropped(entries, k, n, wire, hits, drops, i);
      }
    }
  }

  predicate HitIn(h: Hit, entries: seq<Json>, k: nat, n: nat, wire: Wire)
    requires k <= n <= |entries|
  {
    k <= h.messageIndex < n && PlaceOf(entries[h.messageIndex], wire) == Slot(h.part, h.text)
  }

  lemma NothingRebuilt(entries: seq<Json>, k: nat, n: nat, wire: Wire)
    ensures RebuiltTo(entries, 0, k, n, wire) == []
  {
  }

  lemma RebuildsOne(entries: seq<Json>, i: nat, k: nat, n: nat, wire: Wire, drops: map<nat, set<nat>>)
    requires i < |entries| && k <= n <= |entries| && DropsAre(drops, entries, k, n, wire)
    ensures RebuiltTo(entries, i + 1, k, n, wire) == RebuiltTo(entries, i, k, n, wire) + Rewritten(entries, i, drops)
  {
    hide Rewritten, StripFrom, CarrierOf, PlaceOf;
    RewrittenIsStripped(entries, i, k, n, wire, drops);
  }

  /** The rebuild loop: entries the drop map does not name are pushed unchanged. */
  method Rebuild(entries: seq<Json>, drops: map<nat, set<nat>>, ghost k: nat, ghost n: nat, wire: Wire)
    returns (next: seq<Json>)
    requires k <= n <= |entries| && DropsAre(drops, entries, k, n, wire)
    ensures next == entries[..k] + StripRun(entries[k..n], wire) + entries[n..]
  {
    hide RebuiltTo, Rewritten, StripFrom, DropsAre;
    next := [];
    var i := 0;
    NothingRebuilt(entries, k, n, wire);
    while i < |entries|
      invariant 0 <= i <= |entries|
      invariant next == RebuiltTo(entries, i, k, n, wire)
    {
      RebuildsOne(entries, i, k, n, wire, drops);
      next := next + Rewritten(entries, i, drops);
      i := i + 1;
    }
    RebuiltIs(entries, |entries|, k, n, wire);
    assert entries[n..] == entries[n..|entries|];
  }

  /** extractChainCarriers on a list body, with the source's three loops. */
  method ExtractFromList(parsed: Json, entries: seq<Json>, wire: Wire) returns (e: Extraction)
    requires parsed.Obj? && Get(parsed, ListKey(wire)) == Some(Arr(entries))
    ensures e == Extract(parsed, wire)
  {
    hide PlaceOf, Parse, HitAt;
    var hits := TrailingUserHits(entries, wire);
    ghost var n := Visible(entries, wire);
    ghost var k := RunStart(entries[..n], wire);
    RunStartSkips(entries, n, n, wire);
    HitsDistinct(entries, k, n, wire);
    HitsMatchRun(entries, k, n, wire);
    var found, broken, drops := ClassifyHits(hits);
    DropsFromHits(entries, k, n, wire, hits, drops);
    if |found| > 0 {
      var next := Rebuild(entries, drops, k, n, wire);
      e := Extraction(found, broken, Put(parsed, ListKey(wire), Arr(next)));
    } else {
      e := Extraction(found, broken, parsed);
    }
  }
}
