/**
 * Carrier recognition, insertion, stamping and evaluation on the anthropic, openai and responses
 * wires.
 */
module Carriers {
  import opened Texts
  import opened Seqs
  import opened Json
  import opened Printing
  import opened JcsIdentity
  import opened Checkpoint
  import opened Names

  datatype Wire = Anthropic | OpenAI | Responses

  const CHAIN_PREFIX: Text := Lit("<bili-chain")

  function ListKey(wire: Wire): Text {
    if wire == Responses then INPUT else MESSAGES
  }

  /** The text of a part that is exactly { type: partType, text: string }. */
  function PlainPart(p: Json, partType: Text): Option<Text> {
    if p.Obj? && |p.fields| == 2 && Get(p, TYPE) == Some(Str(partType)) && Get(p, TEXT).Some? && Get(p, TEXT).value.Str?
    then Some(Get(p, TEXT).value.s)
    else None
  }

  function SingleText(content: Option<Json>, partType: Text): Option<Text> {
    match content
    case Some(Str(s)) => Some(s)
    case Some(Arr(es)) => if |es| == 1 then PlainPart(es[0], partType) else None
    case _ => None
  }

  predicate IsUser(e: Json) {
    e.Obj? && Get(e, ROLE) == Some(Str(USER))
  }

  // ---- recognition ----

  /** Stop ends the trailing user run; Open belongs to it without a carrier slot; Slot is a carrier slot. */
  datatype Place = Stop | Open | Slot(part: Option<nat>, text: Text)

  /** The trailing-run rule of the messages wires; anthropic also admits a last part that is the tag. */
  function ChatPlace(entry: Json, relaxLastPart: bool): Place {
    if !IsUser(entry) then Stop
    else
      var content := Get(entry, CONTENT);
      var whole := SingleText(content, TEXT);
      if whole.Some? then Slot(None, whole.value)
      else if relaxLastPart && content.Some? && content.value.Arr? && content.value.elems != [] then
        var li := |content.value.elems| - 1;
        var last := PlainPart(content.value.elems[li], TEXT);
        if last.Some? then Slot(Some(li), last.value) else Open
      else Open
  }

  function ResponsesPlace(entry: Json): Place {
    if !IsUser(entry) || Get(entry, TYPE) != Some(Str(MESSAGE)) then Stop
    else
      var whole := SingleText(Get(entry, CONTENT), INPUT_TEXT);
      if whole.Some? then Slot(None, whole.value) else Stop
  }

  function PlaceOf(entry: Json, wire: Wire): Place {
    if wire == Responses then ResponsesPlace(entry) else ChatPlace(entry, wire == Anthropic)
  }

  predicate IsTrigger(entry: Json) {
    entry.Obj? && Get(entry, TYPE) == Some(Str(COMPACTION_TRIGGER))
  }

  /** How many entries the trailing run is read from: a trailing compaction trigger is looked past. */
  function Visible(entries: seq<Json>, wire: Wire): (n: nat)
    ensures n <= |entries|
  {
    if wire == Responses && entries != [] && IsTrigger(entries[|entries| - 1]) then |entries| - 1 else |entries|
  }

  /** Where the trailing user run of the list starts. */
  function RunStart(entries: seq<Json>, wire: Wire): (k: nat)
    ensures k <= |entries|
  {
    if entries == [] || PlaceOf(entries[|entries| - 1], wire).Stop? then |entries|
    else RunStart(entries[..|entries| - 1], wire)
  }

  /** The checkpoint an entry of the run carries. */
  function CarrierOf(entry: Json, wire: Wire): Option<ChainCheckpoint> {
    match PlaceOf(entry, wire)
    case Slot(_, text) => Parse(text)
    case _ => None
  }

  /** A slot that looks like a tag and does not parse. */
  function MalformedTag(wire: Wire): Json -> seq<Text> {
    (entry: Json) =>
      match PlaceOf(entry, wire)
      case Slot(_, text) => if StartsWith(text, CHAIN_PREFIX) && Parse(text).None? then [text] else []
      case _ => []
  }

  function Candidate(wire: Wire): Json -> seq<ChainCheckpoint> {
    (entry: Json) => match CarrierOf(entry, wire) case Some(cp) => [cp] case None => []
  }

  function CandidatesOf(run: seq<Json>, wire: Wire): seq<ChainCheckpoint> {
    FlatMap(run, Candidate(wire))
  }

  function MalformedOf(run: seq<Json>, wire: Wire): nat {
    |FlatMap(run, MalformedTag(wire))|
  }

  lemma SlotPart(entry: Json, wire: Wire)
    requires PlaceOf(entry, wire).Slot? && PlaceOf(entry, wire).part.Some?
    ensures entry.Obj? && Get(entry, CONTENT).Some? && Get(entry, CONTENT).value.Arr?
    ensures PlaceOf(entry, wire).part.value == |Get(entry, CONTENT).value.elems| - 1
  {
  }

  /** An entry with its carrier taken out: the whole entry, or the one part. */
  function StripEntry(entry: Json, wire: Wire): (r: seq<Json>)
    ensures |r| <= 1
  {
    if CarrierOf(entry, wire).None? then [entry]
    else
      match PlaceOf(entry, wire).part
      case None => []
      case Some(j) =>
        SlotPart(entry, wire);
        var kept := RemoveAt(Get(entry, CONTENT).value.elems, j);
        if kept == [] then [] else [Put(entry, CONTENT, Arr(kept))]
  }

  function Stripper(wire: Wire): Json -> seq<Json> {
    (entry: Json) => StripEntry(entry, wire)
  }

  function StripRun(run: seq<Json>, wire: Wire): seq<Json> {
    FlatMap(run, Stripper(wire))
  }

  /** The list with every recognised carrier of its trailing run removed. */
  function StripList(entries: seq<Json>, wire: Wire): seq<Json> {
    var n := Visible(entries, wire);
    var k := RunStart(entries[..n], wire);
    entries[..k] + StripRun(entries[k..n], wire) + entries[n..]
  }

  datatype Extraction = Extraction(candidates: seq<ChainCheckpoint>, malformed: nat, stripped: Json)

  function ExtractList(parsed: Json, entries: seq<Json>, wire: Wire): Extraction
    requires parsed.Obj?
  {
    var n := Visible(entries, wire);
    var run := entries[RunStart(entries[..n], wire)..n];
    var found := CandidatesOf(run, wire);
    Extraction(found, MalformedOf(run, wire),
               if found == [] then parsed else Put(parsed, ListKey(wire), Arr(StripList(entries, wire))))
  }

  function ExtractText(parsed: Json, s: Text): Extraction
    requires parsed.Obj?
  {
    match Parse(s)
    case Some(cp) => Extraction([cp], 0, Put(parsed, INPUT, Str([])))
    case None => Extraction([], if StartsWith(s, CHAIN_PREFIX) then 1 else 0, parsed)
  }

  /** What extractChainCarriers finds and what it leaves. */
  function Extract(parsed: Json, wire: Wire): Extraction {
    if !parsed.Obj? then Extraction([], 0, parsed)
    else
      match Get(parsed, ListKey(wire))
      case Some(Arr(entries)) => ExtractList(parsed, entries, wire)
      case Some(Str(s)) => if wire != Responses || s == [] then Extraction([], 0, parsed) else ExtractText(parsed, s)
      case _ => Extraction([], 0, parsed)
  }

  // ---- insertion ----

  /** A standalone carrier message, or a user message the tag joins as its last part. */
  datatype Shape = Alone(wire: Wire) | Merged(msg: Json, parts: seq<Json>)

  datatype Point = Point(before: seq<Json>, shape: Shape, after: seq<Json>)

  function TextPart(tag: Text): Json {
    Obj([Field(TYPE, Str(TEXT)), Field(TEXT, Str(tag))])
  }

  function Carrier(shape: Shape, tag: Text): Json
    requires shape.Merged? ==> shape.msg.Obj?
  {
    match shape
    case Alone(Responses) => Obj([Field(TYPE, Str(MESSAGE)), Field(ROLE, Str(USER)), Field(CONTENT, Str(tag))])
    case Alone(_) => Obj([Field(ROLE, Str(USER)), Field(CONTENT, Str(tag))])
    case Merged(m, parts) => Put(m, CONTENT, Arr(parts + [TextPart(tag)]))
  }

  function Last(es: seq<Json>): Option<Json> {
    if es == [] then None else Some(es[|es| - 1])
  }

  predicate CarriesWhole(e: Option<Json>, partType: Text) {
    && e.Some? && IsUser(e.value)
    && var whole := SingleText(Get(e.value, CONTENT), partType);
    && whole.Some? && Parse(whole.value).Some?
  }

  /** The parts a tag is merged after: string content becomes one part, a trailing carrier part is dropped. */
  function MergeParts(content: Json): seq<Json>
    requires content.Str? || content.Arr?
  {
    var parts := if content.Arr? then content.elems else if content.s == [] then [] else [TextPart(content.s)];
    match Last(parts)
    case Some(p) =>
      var t := PlainPart(p, TEXT);
      if t.Some? && Parse(t.value).Some? then parts[..|parts| - 1] else parts
    case None => parts
  }

  function OpenAIPoint(es: seq<Json>): Point {
    if CarriesWhole(Last(es), TEXT) then Point(es[..|es| - 1], Alone(OpenAI), [])
    else Point(es, Alone(OpenAI), [])
  }

  function AnthropicPoint(es: seq<Json>): Point {
    if es == [] || !IsUser(es[|es| - 1]) then Point(es, Alone(Anthropic), [])
    else
      var m := es[|es| - 1];
      var content := Get(m, CONTENT);
      if content.Some? && (content.value.Str? || content.value.Arr?)
      then Point(es[..|es| - 1], Merged(m, MergeParts(content.value)), [])
      else Point(es, Alone(Anthropic), [])
  }

  function ResponsesPoint(es: seq<Json>): Point {
    var n := Visible(es, Responses);
    if CarriesWhole(Last(es[..n]), INPUT_TEXT) && Get(es[n - 1], TYPE) == Some(Str(MESSAGE))
    then Point(es[..n - 1], Alone(Responses), es[n..])
    else Point(es[..n], Alone(Responses), es[n..])
  }

  function ListPoint(es: seq<Json>, wire: Wire): Point {
    if wire == OpenAI then OpenAIPoint(es) else if wire == Anthropic then AnthropicPoint(es) else ResponsesPoint(es)
  }

  /** Where and in which shape a body takes a carrier; None when its shape admits none. */
  function InsertionPoint(parsed: Json, wire: Wire): (r: Option<Point>)
    ensures r.Some? ==> parsed.Obj? && (r.value.shape.Merged? ==> r.value.shape.msg.Obj?)
  {
    if !parsed.Obj? then None
    else
      match Get(parsed, ListKey(wire))
      case Some(Arr(es)) => Some(ListPoint(es, wire))
      case Some(Str(s)) =>
        if wire != Responses then None
        else Some(Point(if s == [] then [] else [Carrier(Alone(Responses), s)], Alone(Responses), []))
      case _ => None
  }

  function PutAt(parsed: Json, wire: Wire, p: Point, tag: Text): Json
    requires parsed.Obj? && (p.shape.Merged? ==> p.shape.msg.Obj?)
  {
    Put(parsed, ListKey(wire), Arr(p.before + [Carrier(p.shape, tag)] + p.after))
  }

  /** insertCheckpointCarrier. */
  function InsertCarrier(parsed: Json, wire: Wire, tag: Text): Option<Json> {
    match InsertionPoint(parsed, wire)
    case None => None
    case Some(p) => Some(PutAt(parsed, wire, p, tag))
  }

  // ---- stamping ----

  function Zeros(n: nat): (t: Text)
    ensures |t| == n && forall i :: 0 <= i < n ==> t[i] == 48
  {
    if n == 0 then [] else Zeros(n - 1) + [48]
  }

  const ZERO_DIGEST: Text := Lit("sha256:") + Zeros(64)

  /** sha256Of: the hash is a function parameter, on the canonical text. */
  function DigestOf(v: Json, sha: Text -> Text): Text {
    Lit("sha256:") + sha(JcsStringify(v))
  }

  ghost predicate HexHash(sha: Text -> Text) {
    forall t :: |sha(t)| == 64 && forall i :: 0 <= i < 64 ==> HexChar(sha(t)[i])
  }

  function ComputeCheckpointDigest(parsed: Json, wire: Wire, fields: ChainCheckpoint, sha: Text -> Text): Option<Text> {
    match InsertCarrier(parsed, wire, Render(fields.(digest := ZERO_DIGEST)))
    case None => None
    case Some(stamped) => Some(DigestOf(Extract(stamped, wire).stripped, sha))
  }

  function Slice(t: Text, a: nat, b: nat): Text {
    if a <= b <= |t| then t[a..b] else if a <= |t| then t[a..] else []
  }

  /** stampOutbound. */
  function StampOutbound(parsed: Json, wire: Wire, processor: Text, now: nat, sha: Text -> Text): Option<Json> {
    if !parsed.Obj? then None
    else
      match ComputeCheckpointDigest(parsed, wire, ChainCheckpoint(SUPPORTED_VERSION, processor, now, [45], []), sha)
      case None => None
      case Some(digest) =>
        InsertCarrier(parsed, wire,
          Render(ChainCheckpoint(SUPPORTED_VERSION, processor, now, Slice(digest, 7, 15), digest)))
  }

  // ---- evaluation ----

  datatype Verdict = NoCheckpoint | Valid | RecentMismatch | StaleCheckpoint | Invalid

  datatype Context = Context(verdict: Verdict, selected: Option<ChainCheckpoint>, selectedMatched: Option<bool>)

  datatype Clock = Clock(now: int, maxFutureSkew: int, recentWindow: int)

  predicate IsFuture(cp: ChainCheckpoint, c: Clock) {
    cp.issuedAt - c.now > c.maxFutureSkew
  }

  predicate IsStale(cp: ChainCheckpoint, c: Clock) {
    !IsFuture(cp, c) && c.now - cp.issuedAt > c.recentWindow
  }

  predicate IsFresh(cp: ChainCheckpoint, c: Clock) {
    !IsFuture(cp, c) && !IsStale(cp, c)
  }

  predicate Matches(cp: ChainCheckpoint, digest: Text) {
    cp.v == SUPPORTED_VERSION && cp.digest == digest
  }

  function KnownVersion(): ChainCheckpoint -> bool {
    (cp: ChainCheckpoint) => cp.v == SUPPORTED_VERSION
  }

  function DigestIs(digest: Text, same: bool): ChainCheckpoint -> bool {
    (cp: ChainCheckpoint) => (cp.digest == digest) == same
  }

  function FreshAt(c: Clock): ChainCheckpoint -> bool {
    (cp: ChainCheckpoint) => IsFresh(cp, c)
  }

  function StaleAt(c: Clock): ChainCheckpoint -> bool {
    (cp: ChainCheckpoint) => IsStale(cp, c)
  }

  function Filter(cs: seq<ChainCheckpoint>, p: ChainCheckpoint -> bool): (r: seq<ChainCheckpoint>)
    ensures forall c :: c in r <==> c in cs && p(c)
  {
    if cs == [] then []
    else
      var rest := Filter(cs[1..], p);
      assert cs == [cs[0]] + cs[1..];
      if p(cs[0]) then [cs[0]] + rest else rest
  }

  /** The first of the latest: reduce keeps the earlier one on a tie. */
  function PickLatest(cs: seq<ChainCheckpoint>): (r: Option<ChainCheckpoint>)
    ensures r.None? <==> cs == []
    ensures r.Some? ==> r.value in cs && forall c :: c in cs ==> c.issuedAt <= r.value.issuedAt
  {
    if cs == [] then None
    else
      match PickLatest(cs[..|cs| - 1])
      case None => Some(cs[|cs| - 1])
      case Some(best) => if cs[|cs| - 1].issuedAt > best.issuedAt then Some(cs[|cs| - 1]) else Some(best)
  }

  /** evaluateChain. */
  function Evaluate(parsed: Json, wire: Wire, c: Clock, sha: Text -> Text): Context {
    var e := Extract(parsed, wire);
    if e.candidates == [] then Context(if e.malformed > 0 then Invalid else NoCheckpoint, None, None)
    else
      var digest := DigestOf(e.stripped, sha);
      var known := Filter(e.candidates, KnownVersion());
      var matched := Filter(known, DigestIs(digest, true));
      var matchedFresh := PickLatest(Filter(matched, FreshAt(c)));
      var unmatched := Filter(known, DigestIs(digest, false));
      if matchedFresh.Some? then Context(Valid, matchedFresh, Some(true))
      else if PickLatest(matched).Some? then Context(StaleCheckpoint, PickLatest(matched), Some(true))
      else
        var latestFresh := PickLatest(Filter(unmatched, FreshAt(c)));
        var latestStale := PickLatest(Filter(unmatched, StaleAt(c)));
        if latestFresh.Some? then Context(RecentMismatch, latestFresh, Some(false))
        else if latestStale.Some? then Context(StaleCheckpoint, latestStale, Some(false))
        else Context(Invalid, None, None)
  }
}
