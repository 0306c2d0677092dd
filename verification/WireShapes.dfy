/** The wire shapes of entries and parts, as a client or provider would describe them. */
module WireShapes {
  import opened Texts
  import opened Json
  import opened Checkpoint
  import opened Carriers

  /** { type: kind, text: words } and nothing else. */
  predicate TextOnly(p: Json, kind: Text, words: Text) {
    && p.Obj? && |p.fields| == 2
    && Get(p, Lit("type")) == Some(Str(kind)) && Get(p, Lit("text")) == Some(Str(words))
  }

  predicate HasRole(e: Json, role: Text) {
    e.Obj? && Get(e, Lit("role")) == Some(Str(role))
  }

  predicate HasType(e: Json, kind: Text) {
    e.Obj? && Get(e, Lit("type")) == Some(Str(kind))
  }

  function Parts(e: Json): (ps: seq<Json>) {
    match Get(e, Lit("content")) case Some(Arr(ps)) => ps case _ => []
  }

  predicate HasParts(e: Json) {
    Get(e, Lit("content")).Some? && Get(e, Lit("content")).value.Arr?
  }

  /** The content is the words: as a string, or as a single part of the kind. */
  predicate SaysOnly(e: Json, kind: Text, words: Text) {
    || Get(e, Lit("content")) == Some(Str(words))
    || (|Parts(e)| == 1 && TextOnly(Parts(e)[0], kind, words))
  }

  /** The entries of a trailing user run. */
  predicate IsUserTurn(e: Json, wire: Wire) {
    HasRole(e, Lit("user")) && (wire == Responses ==> HasType(e, Lit("message")))
  }

  function TextKind(wire: Wire): Text {
    if wire == Responses then Lit("input_text") else Lit("text")
  }

  /** A user entry that says a checkpoint and nothing else. */
  ghost predicate IsWholeCarrier(e: Json, wire: Wire, cp: ChainCheckpoint) {
    IsUserTurn(e, wire) && exists tag :: SaysOnly(e, TextKind(wire), tag) && Parse(tag) == Some(cp)
  }

  ghost predicate IsCarrier(e: Json, wire: Wire) {
    exists cp :: IsWholeCarrier(e, wire, cp)
  }

  predicate IsCompactionTrigger(e: Json) {
    HasType(e, Lit("compaction_trigger"))
  }

  /** A part that is a checkpoint and nothing else. */
  ghost predicate IsTagPart(p: Json, kind: Text) {
    exists tag :: TextOnly(p, kind, tag) && Parse(tag).Some?
  }

  /** Two objects with the same keys in the same order, and the same values but for one key. */
  predicate SameButFor(a: Json, b: Json, key: Text) {
    && a.Obj? && b.Obj? && |a.fields| == |b.fields|
    && forall i :: 0 <= i < |a.fields| ==>
         a.fields[i].key == b.fields[i].key && (a.fields[i].key != key ==> a.fields[i] == b.fields[i])
  }

  lemma PutSameButFor(v: Json, key: Text, val: Json)
    requires v.Obj? && Get(v, key).Some?
    ensures SameButFor(v, Put(v, key, val), key) && Get(Put(v, key, val), key) == Some(val)
  {
    GetPut(v, key, val, key);
  }
}
