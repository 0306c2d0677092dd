/** The cache ledger's arithmetic: splitting every missed token among causes, folds and seam arms. */
module Ledger {
  import opened Texts

  const SWITCH_COLD_ROUNDS := 4
  const WARM_HIT_PCT := 85
  const FOLD_CLAIM_COLD_ROUNDS := 4
  const FOLD_CLAIM_WARM_HIT_PCT := 85
  const PROVIDER_TTL_GAP_MS := 600_000
  const ABORT_WINDOW_MS := 30_000
  const SEAM_BODY_CAP := 524_288
  const INBOUND_MSG_CAP := 8192

  // ---- what a settle brings ----

  /** The components of the target identity. */
  datatype Part = ModelPart | EffortPart | KeyPart | SystemPart | CanonPart | WirePart | UpstreamPart

  /**
   * One usage report. cached is None when the provider reported no cache tokens; a part that is missing or
   * empty on the wire is absent; boot is the daemon boot that settles it; prefix is the stable prefix in
   * tokens measured off the wire, when the captured bodies show a break that is not the client's.
   */
  datatype Sample = Sample(at: int, input: nat, cached: Option<nat>, output: nat,
                           parts: map<Part, string>, boot: string, prefix: Option<nat>)

  /** A compression fold: start is the first folded token, claims the samples it has claimed so far. */
  datatype Fold = Fold(num: nat, at: int, start: Option<nat>, viewAfter: Option<nat>,
                       claims: nat, retired: bool, repaid: nat)

  datatype Cause = Restart | Model | Effort | Key | Prompt | Projection | Wire | Upstream

  /** The order in which simultaneous changes win. */
  const PRIORITY: seq<Cause> := [Restart, Model, Effort, Key, Prompt, Projection, Wire, Upstream]

  datatype Arm = Ttl | Side | Rewind | Client | OrphanSweep | Suspect

  /** A settled sample; prov and seam are what the seam detector booked it as. */
  datatype Line = Line(num: nat, sample: Sample, missed: nat, nc: nat, cr: nat, tr: nat, foldSeq: Option<nat>,
                       flips: set<Cause>, cause: Option<Cause>, first: bool,
                       prov: Option<Arm>, seam: bool, aborted: bool)

  /** The ledger's running totals. */
  datatype Counter =
    | Requests | Input | Cached | Output | NewContent | CompRepay | TtlRepay
    | Switches(c: Cause) | SwitchMissed(c: Cause) | AttributedMissed
    | UnknownSamples | UnknownInput | FirstSamples | FirstInput
    | ArmCount(a: Arm) | ArmMissed(a: Arm) | AbortCorrelated

  type Totals = map<Counter, nat>

  function At(agg: Totals, q: Counter): nat {
    if q in agg then agg[q] else 0
  }

  function Bump(agg: Totals, q: Counter, n: nat): Totals {
    agg[q := At(agg, q) + n]
  }

  /**
   * known holds the last value each part had on a measured sample, open the line at which each cause's cold
   * window was opened.
   */
  datatype Ledger = Ledger(lines: seq<Line>, folds: seq<Fold>, agg: Totals, known: map<Part, string>,
                           open: map<Cause, nat>, lastBoot: Option<string>)

  const Empty := Ledger([], [], map[], map[], map[], None)

  // ---- one sample, split ----

  predicate Measured(s: Sample) {
    s.cached.Some?
  }

  function CachedOf(s: Sample): nat {
    if s.cached.Some? then s.cached.value else 0
  }

  /** hitPct in tenths of a percent, as round1 rounds it. */
  function HitTenths(s: Sample): nat
    requires s.input > 0
  {
    (2000 * CachedOf(s) + s.input) / (2 * s.input)
  }

  /** A warm sample proves the provider re-cached; it retires every cold window. */
  predicate Warm(s: Sample) {
    Measured(s) && s.input > 0 && HitTenths(s) >= 10 * WARM_HIT_PCT
  }

  /** The unrounded test that retires folds. */
  predicate FoldWarm(s: Sample) {
    Measured(s) && s.input > 0 && 100 * CachedOf(s) >= FOLD_CLAIM_WARM_HIT_PCT * s.input
  }

  predicate Claimable(f: Fold, s: Sample) {
    f.at <= s.at && !f.retired && (f.claims == 0 || !FoldWarm(s))
  }

  /** The folds whose cold tail this sample falls into, oldest first. */
  function Pending(folds: seq<Fold>, s: Sample): (r: seq<Fold>)
    ensures forall f :: f in r ==> f in folds && Claimable(f, s)
  {
    if folds == [] then []
    else
      var last := folds[|folds| - 1];
      Pending(folds[..|folds| - 1], s) + (if Claimable(last, s) then [last] else [])
  }

  /** The wire-measured prefix replaces a later fold start on a big miss only. */
  function StartOf(f: Fold, s: Sample): nat {
    var raw := s.input - CachedOf(s);
    if Measured(s) && raw > 8192 && 10 * raw > 3 * s.input && s.prefix.Some? then
      if f.start.Some? && f.start.value <= s.prefix.value then f.start.value else s.prefix.value
    else if f.start.Some? then f.start.value
    else if f.viewAfter.Some? then f.viewAfter.value
    else 0
  }

  /** The first fold with the earliest start. */
  function Earliest(pending: seq<Fold>, s: Sample): (r: Fold)
    requires pending != []
    ensures r in pending
    ensures forall f :: f in pending ==> StartOf(r, s) <= StartOf(f, s)
  {
    if |pending| == 1 then pending[0]
    else
      var best, last := Earliest(pending[..|pending| - 1], s), pending[|pending| - 1];
      if StartOf(last, s) < StartOf(best, s) then last else best
  }

  datatype Split = Split(missed: nat, nc: nat, cr: nat, tr: nat, owner: Option<nat>)

  function Max0(n: int): nat {
    if n < 0 then 0 else n
  }

  function Min(a: nat, b: nat): nat {
    if a < b then a else b
  }

  /** decomposeSample: growth first, then what lies behind the earliest fold, the rest is ttlRepay. */
  function Decompose(prev: Option<nat>, s: Sample, pending: seq<Fold>): (d: Split)
    ensures d.missed == d.nc + d.cr + d.tr && d.missed == Max0(s.input - CachedOf(s))
    ensures d.owner.Some? <==> d.cr > 0
    ensures d.owner.Some? ==> exists f :: f in pending && f.num == d.owner.value
  {
    var missed := Max0(s.input - CachedOf(s));
    var nc := Min(missed, if prev.Some? then Max0(s.input - prev.value) else 0);
    var rest := missed - nc;
    if rest > 0 && pending != [] then
      var f := Earliest(pending, s);
      var cr := Min(rest, Max0(s.input - StartOf(f, s) - nc));
      Split(missed, nc, cr, rest - cr, if cr > 0 then Some(f.num) else None)
    else Split(missed, nc, 0, rest, None)
  }

  function PrevInput(lines: seq<Line>): Option<nat> {
    if lines == [] then None else Some(lines[|lines| - 1].sample.input)
  }

  /** Without any earlier sample nothing could have expired: the residual is new content. */
  function SplitOf(led: Ledger, s: Sample): (d: Split)
    ensures d.missed == d.nc + d.cr + d.tr && d.missed == Max0(s.input - CachedOf(s))
    ensures d.owner.Some? <==> d.cr > 0
    ensures d.owner.Some? ==> exists f :: f in led.folds && f.num == d.owner.value
  {
    var d := Decompose(PrevInput(led.lines), s, Pending(led.folds, s));
    if led.lines == [] && Measured(s) then d.(nc := d.nc + d.tr, tr := 0) else d
  }

  // ---- folds ----

  /** One more claim; the last one allowed closes the fold's window. */
  function Claimed(f: Fold, s: Sample): Fold {
    if Claimable(f, s) then f.(claims := f.claims + 1, retired := f.claims + 1 >= FOLD_CLAIM_COLD_ROUNDS) else f
  }

  function Claim(f: Fold, s: Sample): Fold {
    if FoldWarm(s) && f.at <= s.at then Claimed(f, s).(retired := true) else Claimed(f, s)
  }

  function ClaimAll(folds: seq<Fold>, s: Sample): (r: seq<Fold>)
    ensures |r| == |folds| && forall i :: 0 <= i < |r| ==> r[i] == Claim(folds[i], s)
  {
    if folds == [] then [] else ClaimAll(folds[..|folds| - 1], s) + [Claim(folds[|folds| - 1], s)]
  }

  /** The owner fold, found by its number, is charged the re-paid tokens. */
  function Repay(folds: seq<Fold>, owner: Option<nat>, n: nat): (r: seq<Fold>)
    ensures |r| == |folds|
    ensures forall i :: 0 <= i < |r| ==>
      r[i] == if Some(folds[i].num) == owner then folds[i].(repaid := folds[i].repaid + n) else folds[i]
  {
    if folds == [] then []
    else
      var last := folds[|folds| - 1];
      Repay(folds[..|folds| - 1], owner, n)
      + [if Some(last.num) == owner then last.(repaid := last.repaid + n) else last]
  }

  function FoldsAfter(led: Ledger, s: Sample): seq<Fold> {
    if Measured(s) then Repay(ClaimAll(led.folds, s), SplitOf(led, s).owner, SplitOf(led, s).cr) else led.folds
  }

  // ---- causes ----

  /** A part changed between two measured samples that both carry it. */
  predicate Switched(known: map<Part, string>, s: Sample, p: Part) {
    Measured(s) && p in s.parts && p in known && s.parts[p] != known[p]
  }

  /** The forwarded system text changed while the client's own did not. */
  predicate ProjectionFlip(known: map<Part, string>, s: Sample) {
    && Switched(known, s, SystemPart) && !Switched(known, s, CanonPart)
    && CanonPart in s.parts && CanonPart in known
  }

  predicate Restarted(led: Ledger, s: Sample) {
    Measured(s) && led.lines != [] && led.lastBoot.Some? && led.lastBoot != Some(s.boot)
  }

  function PartFlips(known: map<Part, string>, s: Sample): set<Cause> {
    set c | c in PRIORITY && match c {
      case Restart => false
      case Model => Switched(known, s, ModelPart)
      case Effort => Switched(known, s, EffortPart)
      case Key => Switched(known, s, KeyPart)
      case Prompt => Switched(known, s, SystemPart) && !ProjectionFlip(known, s)
      case Projection => ProjectionFlip(known, s)
      case Wire => Switched(known, s, WirePart)
      case Upstream => Switched(known, s, UpstreamPart)
    }
  }

  /** What changed on this sample. */
  function Flips(led: Ledger, s: Sample): set<Cause> {
    PartFlips(led.known, s) + (if Restarted(led, s) then {Restart} else {})
  }

  /** The first cause of the list that is in the set. */
  function First(list: seq<Cause>, causes: set<Cause>): (r: Option<Cause>)
    ensures r.Some? ==> r.value in causes && r.value in list
    ensures r.None? ==> forall c :: c in list ==> c !in causes
  {
    if list == [] then None else if list[0] in causes then Some(list[0]) else First(list[1..], causes)
  }

  /** The causes whose cold window covers line number num. */
  function Continuing(open: map<Cause, nat>, s: Sample, num: nat): set<Cause> {
    set c | c in open && !Warm(s) && num - open[c] <= SWITCH_COLD_ROUNDS
  }

  /** A change on this line outranks any window still open. */
  function CauseOf(led: Ledger, s: Sample): Option<Cause> {
    var newest := First(PRIORITY, Flips(led, s));
    if !Measured(s) then None
    else if newest.Some? then newest
    else First(PRIORITY, Continuing(led.open, s, |led.lines| + 1))
  }

  /** A warm sample closes every window, an expired one drops out, a change opens its own. */
  function Windows(open: map<Cause, nat>, s: Sample, flips: set<Cause>, num: nat): map<Cause, nat> {
    (map c | c in open && !Warm(s) && num - open[c] <= SWITCH_COLD_ROUNDS :: open[c])
    + (map c | c in flips && c != Restart :: num)
  }

  function OpenAfter(led: Ledger, s: Sample): map<Cause, nat> {
    if Measured(s) then Windows(led.open, s, Flips(led, s), |led.lines| + 1) else led.open
  }

  function KnownAfter(led: Ledger, s: Sample): map<Part, string> {
    if Measured(s) then led.known + s.parts else led.known
  }

  // ---- recording ----

  function NewLine(led: Ledger, s: Sample): Line {
    var d := if Measured(s) then SplitOf(led, s) else Split(0, 0, 0, 0, None);
    Line(|led.lines| + 1, s, d.missed, d.nc, d.cr, d.tr, d.owner, Flips(led, s), CauseOf(led, s),
         led.lines == [] && Measured(s), None, false, false)
  }

  function AggAfter(agg: Totals, l: Line): Totals {
    var a := Bump(Bump(agg, Requests, 1), Output, l.sample.output);
    if !Measured(l.sample) then Bump(Bump(a, UnknownInput, l.sample.input), UnknownSamples, 1)
    else
      var b := Bump(Bump(Bump(Bump(Bump(a, Input, l.sample.input), Cached, CachedOf(l.sample)),
                              NewContent, l.nc), CompRepay, l.cr), TtlRepay, l.tr);
      var newest := First(PRIORITY, l.flips);
      var c := if newest.Some? then Bump(b, Switches(newest.value), 1) else b;
      var d := if l.cause.Some? then Bump(Bump(c, SwitchMissed(l.cause.value), l.tr), AttributedMissed, l.tr) else c;
      if l.first then Bump(Bump(d, FirstSamples, 1), FirstInput, l.sample.input) else d
  }

  /** recordCacheSample. */
  function Record(led: Ledger, s: Sample): Ledger {
    var l := NewLine(led, s);
    Ledger(led.lines + [l], FoldsAfter(led, s), AggAfter(led.agg, l), KnownAfter(led, s), OpenAfter(led, s),
           Some(s.boot))
  }

  /** pushFold. */
  function Cut(led: Ledger, at: int, start: Option<nat>, viewAfter: Option<nat>): Ledger {
    led.(folds := led.folds + [Fold(|led.folds| + 1, at, start, viewAfter, 0, false, 0)])
  }

  // ---- the seam detector ----

  /** A captured outbound body: its send order, recorded head, full size and message count. */
  datatype Slot = Slot(order: Option<nat>, head: nat, bytes: nat, msgs: Option<nat>)

  /** How two recorded heads compare: common bytes, first differing message, messages in each. */
  datatype Shape = Shape(lcp: nat, msgIndex: Option<nat>, prevMsgs: nat, curMsgs: nat)

  datatype Bodies = Bodies(prev: Slot, cur: Slot, shape: Shape)

  /** A client's own list as recorded: its size, and a fingerprint per message unless it is too long. */
  datatype InSlot = InSlot(msgs: nat, prints: seq<Text>)

  datatype Inbound = Inbound(prev: InSlot, cur: InSlot)

  datatype Evidence = Evidence(abortAt: Option<int>, bodies: Option<Bodies>, inbound: Option<Inbound>, sweeps: nat)

  predicate OutOfOrder(b: Bodies) {
    b.cur.order.Some? && b.prev.order.Some? && b.cur.order.value <= b.prev.order.value
  }

  predicate Whole(b: Bodies) {
    b.prev.bytes <= SEAM_BODY_CAP && b.cur.bytes <= SEAM_BODY_CAP
  }

  /** The arms the two outbound bodies decide; None leaves the question open. */
  function BodyArm(b: Bodies, gap: int): Option<Arm> {
    var provider := if gap > PROVIDER_TTL_GAP_MS then Ttl else Side;
    var f := b.shape;
    if Whole(b) && f.prevMsgs > 0 && f.curMsgs < f.prevMsgs then Some(Rewind)
    else if b.cur.head < b.prev.head && f.lcp >= b.cur.head - 4 then Some(Rewind)
    else if f.lcp >= b.cur.head then Some(provider)
    else if Whole(b) && f.prevMsgs > 0 && f.msgIndex == Some(f.prevMsgs) && f.curMsgs > f.prevMsgs then Some(provider)
    else if b.prev.head < b.cur.head && f.lcp >= b.prev.head - 4
            && b.prev.msgs.Some? && b.cur.msgs.Some? && b.cur.msgs.value > b.prev.msgs.value then Some(provider)
    else None
  }

  /** firstDivergentInboundMsg: the first place where both lists have a message and the two differ. */
  function FirstDivergent(prev: seq<Text>, cur: seq<Text>): Option<nat> {
    if prev == [] || cur == [] then None
    else if prev[0] != cur[0] then Some(0)
    else match FirstDivergent(prev[1..], cur[1..]) case Some(k) => Some(k + 1) case None => None
  }

  /** The client's own list broke before the end of the shorter one. */
  predicate ClientBreak(i: Inbound) {
    && i.prev.msgs <= INBOUND_MSG_CAP && i.cur.msgs <= INBOUND_MSG_CAP
    && var k := FirstDivergent(i.prev.prints, i.cur.prints);
    && k.Some? && k.value < Min(i.prev.msgs, i.cur.msgs)
  }

  function ArmOf(e: Evidence, gap: int): Arm {
    if e.bodies.Some? && BodyArm(e.bodies.value, gap).Some? then BodyArm(e.bodies.value, gap).value
    else if e.inbound.Some? && ClientBreak(e.inbound.value) then Client
    else if e.sweeps > 0 then OrphanSweep
    else Suspect
  }

  /** A miss no structural attribution explains, and a big slice of a big bill. */
  predicate Unexplained(l: Line) {
    && l.flips * {Model, Wire, Upstream, Restart} == {} && l.cause.None? && l.foldSeq.None?
    && l.tr > 8192 && 10 * l.tr > 3 * l.sample.input
  }

  predicate Examined(l: Line) {
    Measured(l.sample) && l.missed > 0 && !l.first
  }

  predicate NearAbort(l: Line, e: Evidence) {
    e.abortAt.Some? && -ABORT_WINDOW_MS < l.sample.at - e.abortAt.value < ABORT_WINDOW_MS
  }

  predicate Booked(l: Line, e: Evidence) {
    Examined(l) && Unexplained(l) && !(e.bodies.Some? && OutOfOrder(e.bodies.value))
  }

  function GapBefore(lines: seq<Line>): int
    requires lines != []
  {
    if |lines| >= 2 then lines[|lines| - 1].sample.at - lines[|lines| - 2].sample.at else 0
  }

  /** The last line after the detector saw it. */
  function Mark(l: Line, e: Evidence, gap: int): Line {
    var a := l.(aborted := l.aborted || (Examined(l) && NearAbort(l, e)));
    if !Booked(l, e) then a
    else if ArmOf(e, gap) == Suspect then a.(seam := true)
    else a.(prov := Some(ArmOf(e, gap)))
  }

  function SeamAgg(agg: Totals, l: Line, e: Evidence, gap: int): Totals {
    var a := if Examined(l) && NearAbort(l, e) then Bump(agg, AbortCorrelated, 1) else agg;
    if Booked(l, e) then Bump(Bump(a, ArmCount(ArmOf(e, gap)), 1), ArmMissed(ArmOf(e, gap)), l.tr) else a
  }

  /** detectSeam. */
  function Detect(led: Ledger, e: Evidence): Ledger
    requires led.lines != []
  {
    var n := |led.lines| - 1;
    var l, gap := led.lines[n], GapBefore(led.lines);
    led.(lines := led.lines[..n] + [Mark(l, e, gap)], agg := SeamAgg(led.agg, l, e, gap))
  }

  // ---- runs ----

  /** A fold is cut, or a usage report settles with the evidence its request captured. */
  datatype Event =
    | FoldCut(at: int, start: Option<nat>, viewAfter: Option<nat>)
    | Settled(sample: Sample, evidence: Evidence)

  function Apply(led: Ledger, ev: Event): Ledger {
    match ev
    case FoldCut(at, start, viewAfter) => Cut(led, at, start, viewAfter)
    case Settled(s, e) => Detect(Record(led, s), e)
  }

  function Run(events: seq<Event>): Ledger {
    if events == [] then Empty else Apply(Run(events[..|events| - 1]), events[|events| - 1])
  }
}
