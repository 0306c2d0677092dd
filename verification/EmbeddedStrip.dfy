/** Removing carriers that leaked into a transcript, at any position of the message list. */
module EmbeddedStrip {
  import opened Texts
  import opened Seqs
  import opened Json
  import opened Checkpoint
  import opened Names
  import opened Carriers
  import opened Stamping

  function PartType(wire: Wire): Text {
    if wire == Responses then INPUT_TEXT else TEXT
  }

  predicate IsCarrierPart(p: Json, wire: Wire) {
    PlainPart(p, PartType(wire)).Some? && Parse(PlainPart(p, PartType(wire)).value).Some?
  }

  /** User and assistant entries are cleaned; tool and system content is user data. */
  predicate Eligible(entry: Json, wire: Wire) {
    && entry.Obj?
    && (wire == Responses ==> Get(entry, TYPE) == Some(Str(MESSAGE)))
    && (Get(entry, ROLE) == Some(Str(USER)) || Get(entry, ROLE) == Some(Str(ASSISTANT)))
  }

  function Kept(parts: seq<Json>, wire: Wire): (r: seq<Json>)
    ensures |r| <= |parts|
  {
    if parts == [] then []
    else if IsCarrierPart(parts[0], wire) then Kept(parts[1..], wire)
    else [parts[0]] + Kept(parts[1..], wire)
  }

  /** How many carriers an entry holds. */
  function CarrierCount(entry: Json, wire: Wire): nat {
    if !Eligible(entry, wire) then 0
    else
      match Get(entry, CONTENT)
      case Some(Str(s)) => if Parse(s).Some? then 1 else 0
      case Some(Arr(ps)) => |ps| - |Kept(ps, wire)|
      case _ => 0
  }

  /** What is left of an entry: nothing when it held nothing else. */
  function Cleaned(entry: Json, wire: Wire): seq<Json> {
    if CarrierCount(entry, wire) == 0 then [entry]
    else
      match Get(entry, CONTENT)
      case Some(Arr(ps)) =>
        if Kept(ps, wire) == [] then [] else [Put(entry, CONTENT, Arr(Kept(ps, wire)))]
      case _ => []
  }

  function Cleaner(wire: Wire): Json -> seq<Json> {
    (entry: Json) => Cleaned(entry, wire)
  }

  function CleanList(entries: seq<Json>, wire: Wire): seq<Json> {
    FlatMap(entries, Cleaner(wire))
  }

  function TotalCarriers(entries: seq<Json>, wire: Wire): nat {
    if entries == [] then 0 else CarrierCount(entries[0], wire) + TotalCarriers(entries[1..], wire)
  }

  // ---- the list spliced in place ----

  /** One turn of the outer loop: what is spliced back for an entry, and how many carriers went. */
  method CleanEntry(entry: Json, wire: Wire) returns (left: seq<Json>, removed: nat)
    ensures left == Cleaned(entry, wire) && removed == CarrierCount(entry, wire)
  {
    left, removed := [entry], 0;
    if Eligible(entry, wire) && Get(entry, CONTENT).Some? {
      var content := Get(entry, CONTENT).value;
      if content.Str? && Parse(content.s).Some? {
        left, removed := [], 1;
      } else if content.Arr? {
        var parts;
        parts, removed := StripParts(content.elems, wire);
        if removed > 0 {
          left := if parts == [] then [] else [Put(entry, CONTENT, Arr(parts))];
        }
      }
    }
  }

  lemma CleanSuffix(es: seq<Json>, i: nat, wire: Wire)
    requires i < |es|
    ensures CleanList(es[i..], wire) == Cleaned(es[i], wire) + CleanList(es[i + 1..], wire)
    ensures TotalCarriers(es[i..], wire) == CarrierCount(es[i], wire) + TotalCarriers(es[i + 1..], wire)
  {
    assert es[i..][1..] == es[i + 1..];
  }

  class MessageList {
    var entries: seq<Json>

    constructor (es: seq<Json>)
      ensures entries == es
    {
      entries := es;
    }

    /** stripEmbeddedChainCarriers on an array-shaped body: a reverse index loop over entries. */
    method StripEmbedded(wire: Wire) returns (stripped: nat)
      modifies this
      ensures entries == CleanList(old(entries), wire)
      ensures stripped == TotalCarriers(old(entries), wire)
    {
      hide Cleaned, CarrierCount;
      ghost var before := entries;
      stripped := 0;
      var i := |entries|;
      assert before[..i] == before && before[i..] == [];
      while i > 0
        invariant 0 <= i <= |before|
        invariant entries == before[..i] + CleanList(before[i..], wire)
        invariant stripped == TotalCarriers(before[i..], wire)
      {
        i := i - 1;
        CleanSuffix(before, i, wire);
        assert entries[i] == before[i];
        var left, removed := CleanEntry(entries[i], wire);
        Splice(before[..i], before[i], CleanList(before[i + 1..], wire), left);
        assert before[..i + 1] == before[..i] + [before[i]];
        entries := entries[..i] + left + entries[i + 1..];
        stripped := stripped + removed;
      }
      assert before[0..] == before;
    }
  }

  lemma {:induction false} KeptHead(p: Json, rest: seq<Json>, wire: Wire)
    ensures Kept([p] + rest, wire) == (if IsCarrierPart(p, wire) then [] else [p]) + Kept(rest, wire)
  {
    assert ([p] + rest)[1..] == rest;
  }

  lemma KeptNothing(wire: Wire)
    ensures Kept([], wire) == []
  {
  }

  method StripParts(ps: seq<Json>, wire: Wire) returns (parts: seq<Json>, removed: nat)
    ensures parts == Kept(ps, wire) && removed == |ps| - |Kept(ps, wire)|
  {
    hide IsCarrierPart, Kept;
    parts, removed := ps, 0;
    var j := |parts|;
    assert ps[..j] == ps && ps[j..] == [];
    KeptNothing(wire);
    while j > 0
      invariant 0 <= j <= |ps|
      invariant parts == ps[..j] + Kept(ps[j..], wire)
      invariant removed == |ps| - j - |Kept(ps[j..], wire)|
    {
      j := j - 1;
      assert ps[j..] == [ps[j]] + ps[j + 1..] && ps[..j + 1] == ps[..j] + [ps[j]];
      KeptHead(ps[j], ps[j + 1..], wire);
      Splice(ps[..j], ps[j], Kept(ps[j + 1..], wire), []);
      if IsCarrierPart(parts[j], wire) {
        parts := parts[..j] + parts[j + 1..];
        removed := removed + 1;
      }
    }
    assert ps[0..] == ps;
  }

  // ---- what stripping achieves ----

  lemma {:induction false} KeptHasNoCarrier(ps: seq<Json>, wire: Wire)
    ensures Kept(Kept(ps, wire), wire) == Kept(ps, wire)
    ensures forall i :: 0 <= i < |Kept(ps, wire)| ==> !IsCarrierPart(Kept(ps, wire)[i], wire)
  {
    if ps != [] {
      KeptHasNoCarrier(ps[1..], wire);
      if !IsCarrierPart(ps[0], wire) {
        KeptHead(ps[0], Kept(ps[1..], wire), wire);
      }
    }
  }

  lemma CleanedShape(entry: Json, ps: seq<Json>, wire: Wire)
    requires Eligible(entry, wire)
    ensures Eligible(Put(entry, CONTENT, Arr(ps)), wire)
    ensures Get(Put(entry, CONTENT, Arr(ps)), CONTENT) == Some(Arr(ps))
  {
    KeysDiffer();
    GetPut(entry, CONTENT, Arr(ps), ROLE);
    GetPut(entry, CONTENT, Arr(ps), TYPE);
  }

  lemma CleanedIsClean(entry: Json, wire: Wire)
    ensures forall i :: 0 <= i < |Cleaned(entry, wire)| ==> CarrierCount(Cleaned(entry, wire)[i], wire) == 0
  {
    if CarrierCount(entry, wire) > 0 && Get(entry, CONTENT).value.Arr? {
      var ps := Get(entry, CONTENT).value.elems;
      CleanedShape(entry, Kept(ps, wire), wire);
      KeptHasNoCarrier(ps, wire);
    }
  }

  predicate AllClean(entries: seq<Json>, wire: Wire) {
    forall i :: 0 <= i < |entries| ==> CarrierCount(entries[i], wire) == 0
  }

  lemma {:induction false} CleanListIsClean(entries: seq<Json>, wire: Wire)
    ensures AllClean(CleanList(entries, wire), wire)
  {
    if entries != [] {
      CleanedIsClean(entries[0], wire);
      CleanListIsClean(entries[1..], wire);
    }
  }

  lemma {:induction false} CleanStaysPut(entries: seq<Json>, wire: Wire)
    requires AllClean(entries, wire)
    ensures CleanList(entries, wire) == entries && TotalCarriers(entries, wire) == 0
  {
    if entries != [] {
      CleanStaysPut(entries[1..], wire);
      assert Cleaner(wire)(entries[0]) == [entries[0]];
      assert entries == [entries[0]] + entries[1..];
    }
  }

  /** Stripping twice is stripping once, and the second pass reports nothing. */
  lemma StripIsIdempotent(entries: seq<Json>, wire: Wire)
    ensures CleanList(CleanList(entries, wire), wire) == CleanList(entries, wire)
    ensures TotalCarriers(CleanList(entries, wire), wire) == 0
  {
    CleanListIsClean(entries, wire);
    CleanStaysPut(CleanList(entries, wire), wire);
  }

  // ---- nothing recognisable is left ----

  lemma CleanEntryCarriesNothing(entry: Json, wire: Wire)
    requires CarrierCount(entry, wire) == 0
    ensures CarrierOf(entry, wire) == None
  {
    hide Parse;
    if CarrierOf(entry, wire).Some? {
      var content := Get(entry, CONTENT).value;
      assert Eligible(entry, wire);
      if content.Arr? {
        KeptOfCarriers(content.elems, |content.elems| - 1, wire);
      }
    }
  }

  lemma {:induction false} KeptOfCarriers(ps: seq<Json>, i: nat, wire: Wire)
    requires i < |ps|
    ensures IsCarrierPart(ps[i], wire) ==> |Kept(ps, wire)| < |ps|
  {
    if i > 0 {
      KeptOfCarriers(ps[1..], i - 1, wire);
    }
  }

  lemma {:induction false} CleanRunCarriesNothing(run: seq<Json>, wire: Wire)
    requires AllClean(run, wire)
    ensures CandidatesOf(run, wire) == []
  {
    if run != [] {
      CleanEntryCarriesNothing(run[0], wire);
      CleanRunCarriesNothing(run[1..], wire);
    }
  }

  /** A stripped body has no candidate left for recognition. */
  lemma StrippedHasNoCandidate(parsed: Json, entries: seq<Json>, wire: Wire)
    requires parsed.Obj?
    ensures Extract(Put(parsed, ListKey(wire), Arr(CleanList(entries, wire))), wire).candidates == []
  {
    var es := CleanList(entries, wire);
    CleanListIsClean(entries, wire);
    ExtractPut(parsed, wire, es);
    var n := Visible(es, wire);
    CleanRunCarriesNothing(es[RunStart(es[..n], wire)..n], wire);
  }

  // ---- everything else stays, in order ----

  /** An entry cut into what carries content: itself, or one copy per part that is no carrier. */
  function Leaves(entry: Json, wire: Wire): seq<Json> {
    if !Eligible(entry, wire) then [entry]
    else
      match Get(entry, CONTENT)
      case Some(Str(s)) => if Parse(s).Some? then [] else [entry]
      case Some(Arr(ps)) => if ps == [] then [entry] else PartLeaves(entry, Kept(ps, wire))
      case _ => [entry]
  }

  function PartLeaves(entry: Json, ps: seq<Json>): seq<Json>
    requires entry.Obj?
  {
    if ps == [] then [] else [Put(entry, CONTENT, Arr([ps[0]]))] + PartLeaves(entry, ps[1..])
  }

  function Leaver(wire: Wire): Json -> seq<Json> {
    (entry: Json) => Leaves(entry, wire)
  }

  function AllLeaves(entries: seq<Json>, wire: Wire): seq<Json> {
    FlatMap(entries, Leaver(wire))
  }

  lemma {:induction false} PartLeavesAfterPut(entry: Json, ps: seq<Json>, content: Json)
    requires entry.Obj?
    ensures PartLeaves(Put(entry, CONTENT, content), ps) == PartLeaves(entry, ps)
  {
    if ps != [] {
      PutPut(entry, CONTENT, content, Arr([ps[0]]));
      PartLeavesAfterPut(entry, ps[1..], content);
    }
  }

  lemma CleanedKeepsLeaves(entry: Json, wire: Wire)
    ensures AllLeaves(Cleaned(entry, wire), wire) == Leaves(entry, wire)
  {
    var c := Cleaned(entry, wire);
    assert |c| == 1 ==> AllLeaves(c, wire) == Leaves(c[0], wire) by {
      if |c| == 1 {
        assert FlatMap(c[1..], Leaver(wire)) == [];
      }
    }
    if CarrierCount(entry, wire) > 0 && Get(entry, CONTENT).value.Arr? {
      var ps := Get(entry, CONTENT).value.elems;
      CleanedShape(entry, Kept(ps, wire), wire);
      KeptHasNoCarrier(ps, wire);
      PartLeavesAfterPut(entry, Kept(ps, wire), Arr(Kept(ps, wire)));
    }
  }

  /** Stripping loses no other content and keeps it all in order. */
  lemma {:induction false} StripKeepsTheRest(entries: seq<Json>, wire: Wire)
    ensures AllLeaves(CleanList(entries, wire), wire) == AllLeaves(entries, wire)
  {
    if entries != [] {
      FlatMapConcat(Cleaned(entries[0], wire), CleanList(entries[1..], wire), Leaver(wire));
      CleanedKeepsLeaves(entries[0], wire);
      StripKeepsTheRest(entries[1..], wire);
    }
  }
}
