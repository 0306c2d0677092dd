/** What the removal of leaked carriers takes and leaves, told by the wire shapes of the entries alone. */
module Cleaning {
  import opened Texts
  import opened Seqs
  import opened Json
  import opened Checkpoint
  import opened Names
  import opened Carriers
  import opened EmbeddedStrip
  import opened WireShapes
  import opened Insertion

  /** The parts that are no tags, in order. */
  ghost predicate Survive(ps: seq<Json>, kind: Text, kept: seq<Json>) {
    if ps == [] then kept == []
    else if IsTagPart(ps[0], kind) then Survive(ps[1..], kind, kept)
    else kept != [] && kept[0] == ps[0] && Survive(ps[1..], kind, kept[1..])
  }

  /** Users and assistants may have echoed a carrier; what tools and systems say is data. */
  predicate MayEcho(e: Json, wire: Wire) {
    (HasRole(e, Lit("user")) || HasRole(e, Lit("assistant"))) && (wire == Responses ==> HasType(e, Lit("message")))
  }

  /** One entry: untouched, gone, or without its tag parts; taken counts the tags. */
  ghost predicate LeavesOf(e: Json, wire: Wire, left: seq<Json>, taken: nat) {
    if !MayEcho(e, wire) || Get(e, Lit("content")).None? then left == [e] && taken == 0
    else
      match Get(e, Lit("content")).value
      case Str(s) => if Parse(s).Some? then left == [] && taken == 1 else left == [e] && taken == 0
      case Arr(ps) =>
        && taken <= |ps|
        && exists kept :: Survive(ps, TextKind(wire), kept) && |kept| == |ps| - taken
             && LeftWith(e, left, taken, kept)
      case _ => left == [e] && taken == 0
  }

  predicate LeftWith(e: Json, left: seq<Json>, taken: nat, kept: seq<Json>) {
    if taken == 0 then left == [e]
    else if kept == [] then left == []
    else |left| == 1 && SameButFor(e, left[0], Lit("content")) && HasParts(left[0]) && Parts(left[0]) == kept
  }

  ghost predicate ListLeaves(es: seq<Json>, wire: Wire, left: seq<Json>, taken: nat) {
    if es == [] then left == [] && taken == 0
    else
      exists l, n: nat :: LeavesOf(es[0], wire, l, n) && l <= left && n <= taken
        && ListLeaves(es[1..], wire, left[|l|..], taken - n)
  }

  lemma TagIsCarrierPart(p: Json, wire: Wire)
    ensures IsTagPart(p, TextKind(wire)) <==> IsCarrierPart(p, wire)
  {
    hide Parse;
    SameWords();
    if PlainPart(p, PartType(wire)).Some? {
      assert TextOnly(p, TextKind(wire), PlainPart(p, PartType(wire)).value);
    }
  }

  lemma {:induction false} KeptSurvive(ps: seq<Json>, wire: Wire)
    ensures Survive(ps, TextKind(wire), Kept(ps, wire))
  {
    if ps != [] {
      hide IsCarrierPart, IsTagPart;
      TagIsCarrierPart(ps[0], wire);
      KeptSurvive(ps[1..], wire);
    }
  }

  lemma CleanedLeaves(e: Json, wire: Wire)
    ensures LeavesOf(e, wire, Cleaned(e, wire), CarrierCount(e, wire))
  {
    hide Parse, Survive, Kept;
    SameWords();
    if MayEcho(e, wire) && HasParts(e) {
      var kept := Kept(Parts(e), wire);
      KeptSurvive(Parts(e), wire);
      PutSameButFor(e, CONTENT, Arr(kept));
      assert LeftWith(e, Cleaned(e, wire), CarrierCount(e, wire), kept);
    }
  }

  /**
   * The removal takes every tag out of every user and assistant entry, whatever its place, drops the entries
   * that held nothing else, leaves all others exactly as they were, and reports the number of tags taken.
   */
  lemma {:induction false} StripTakesTheTags(es: seq<Json>, wire: Wire)
    ensures ListLeaves(es, wire, CleanList(es, wire), TotalCarriers(es, wire))
  {
    if es != [] {
      hide LeavesOf, Cleaned, CarrierCount;
      CleanedLeaves(es[0], wire);
      StripTakesTheTags(es[1..], wire);
      Behind(Cleaned(es[0], wire), CleanList(es[1..], wire));
    }
  }
}
