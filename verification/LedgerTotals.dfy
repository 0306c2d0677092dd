/** Over every run the ledger closes: its counters are sums over its lines, and the causes partition the misses. */
module LedgerTotals {
  import opened Texts
  import opened Ledger

  // ---- what each line contributes ----

  predicate BookedAs(l: Line, a: Arm) {
    if a == Suspect then l.seam else l.prov == Some(a)
  }

  function Share(l: Line, q: Counter): nat {
    match q
    case Requests => 1
    case Input => if Measured(l.sample) then l.sample.input else 0
    case Cached => CachedOf(l.sample)
    case Output => l.sample.output
    case NewContent => l.nc
    case CompRepay => l.cr
    case TtlRepay => l.tr
    case Switches(c) => if First(PRIORITY, l.flips) == Some(c) then 1 else 0
    case SwitchMissed(c) => if l.cause == Some(c) then l.tr else 0
    case AttributedMissed => if l.cause.Some? then l.tr else 0
    case UnknownSamples => if Measured(l.sample) then 0 else 1
    case UnknownInput => if Measured(l.sample) then 0 else l.sample.input
    case FirstSamples => if l.first then 1 else 0
    case FirstInput => if l.first then l.sample.input else 0
    case ArmCount(a) => if BookedAs(l, a) then 1 else 0
    case ArmMissed(a) => if BookedAs(l, a) then l.tr else 0
    case AbortCorrelated => if l.aborted then 1 else 0
  }

  function Total(lines: seq<Line>, q: Counter): nat {
    if lines == [] then 0 else Total(lines[..|lines| - 1], q) + Share(lines[|lines| - 1], q)
  }

  function Repaid(folds: seq<Fold>): nat {
    if folds == [] then 0 else Repaid(folds[..|folds| - 1]) + folds[|folds| - 1].repaid
  }

  // ---- the invariant ----

  /** A line splits its own miss, is charged only when measured, and is booked in at most one arm, uncharged. */
  predicate LineOk(l: Line) {
    && l.missed == l.nc + l.cr + l.tr
    && l.missed == (if Measured(l.sample) then Max0(l.sample.input - CachedOf(l.sample)) else 0)
    && (l.foldSeq.Some? <==> l.cr > 0)
    && (!Measured(l.sample) ==> l.flips == {} && l.cause.None? && !l.first)
    && (l.first ==> l.tr == 0)
    && l.prov != Some(Suspect) && !(l.prov.Some? && l.seam)
    && (l.prov.Some? || l.seam ==> l.cause.None? && l.foldSeq.None? && Unexplained(l))
  }

  predicate FoldOk(f: Fold) {
    f.claims <= FOLD_CLAIM_COLD_ROUNDS && (f.claims == FOLD_CLAIM_COLD_ROUNDS ==> f.retired)
  }

  /** Every counter is the sum of the lines' shares. */
  ghost predicate TotalsMatch(led: Ledger) {
    forall q :: At(led.agg, q) == Total(led.lines, q)
  }

  ghost predicate Sound(led: Ledger) {
    && (forall i :: 0 <= i < |led.lines| ==> led.lines[i].num == i + 1 && LineOk(led.lines[i]))
    && (forall i :: 0 <= i < |led.folds| ==> led.folds[i].num == i + 1 && FoldOk(led.folds[i]))
    && TotalsMatch(led)
    && Repaid(led.folds) == At(led.agg, CompRepay)
  }

  // ---- recording keeps it ----

  lemma TotalLast(lines: seq<Line>, l: Line, q: Counter)
    ensures Total(lines + [l], q) == Total(lines, q) + Share(l, q)
  {
    hide Share;
    assert (lines + [l])[..|lines|] == lines;
  }

  lemma NewLineOk(led: Ledger, s: Sample)
    ensures LineOk(NewLine(led, s))
  {
    hide Decompose, First, Pending;
    assert !Measured(s) ==> Flips(led, s) == {} by {
      hide SplitOf;
    }
  }

  lemma BumpAt(agg: Totals, k: Counter, n: nat, q: Counter)
    ensures At(Bump(agg, k, n), q) == At(agg, q) + (if q == k then n else 0)
  {
  }

  /** A fresh line moves every counter by its share. */
  lemma AggMoves(agg: Totals, l: Line, q: Counter)
    requires LineOk(l) && l.prov.None? && !l.seam && !l.aborted
    ensures At(AggAfter(agg, l), q) == At(agg, q) + Share(l, q)
  {
    hide First, Unexplained, Bump, At;
    var a1 := Bump(agg, Requests, 1);
    BumpAt(agg, Requests, 1, q);
    BumpAt(a1, Output, l.sample.output, q);
    var a := Bump(a1, Output, l.sample.output);
    if !Measured(l.sample) {
      NoneFresh(l.flips);
      BumpAt(a, UnknownInput, l.sample.input, q);
      BumpAt(Bump(a, UnknownInput, l.sample.input), UnknownSamples, 1, q);
    } else {
      var b1 := Bump(a, Input, l.sample.input);
      BumpAt(a, Input, l.sample.input, q);
      var b2 := Bump(b1, Cached, CachedOf(l.sample));
      BumpAt(b1, Cached, CachedOf(l.sample), q);
      var b3 := Bump(b2, NewContent, l.nc);
      BumpAt(b2, NewContent, l.nc, q);
      var b4 := Bump(b3, CompRepay, l.cr);
      BumpAt(b3, CompRepay, l.cr, q);
      var b := Bump(b4, TtlRepay, l.tr);
      BumpAt(b4, TtlRepay, l.tr, q);
      CausesMove(b, l, q);
    }
  }

  /** The switch counters and the first-sample counters. */
  lemma CausesMove(b: Totals, l: Line, q: Counter)
    ensures var newest := First(PRIORITY, l.flips);
      var c := if newest.Some? then Bump(b, Switches(newest.value), 1) else b;
      var d := if l.cause.Some? then Bump(Bump(c, SwitchMissed(l.cause.value), l.tr), AttributedMissed, l.tr) else c;
      At(if l.first then Bump(Bump(d, FirstSamples, 1), FirstInput, l.sample.input) else d, q) ==
        At(b, q) + (match q
          case Switches(k) => if newest == Some(k) then 1 else 0
          case SwitchMissed(k) => if l.cause == Some(k) then l.tr else 0
          case AttributedMissed => if l.cause.Some? then l.tr else 0
          case FirstSamples => if l.first then 1 else 0
          case FirstInput => if l.first then l.sample.input else 0
          case _ => 0)
  {
    hide First, Bump, At;
    var newest := First(PRIORITY, l.flips);
    var c := b;
    if newest.Some? {
      c := Bump(b, Switches(newest.value), 1);
      BumpAt(b, Switches(newest.value), 1, q);
    }
    var d := c;
    if l.cause.Some? {
      BumpAt(c, SwitchMissed(l.cause.value), l.tr, q);
      d := Bump(c, SwitchMissed(l.cause.value), l.tr);
      BumpAt(d, AttributedMissed, l.tr, q);
      d := Bump(d, AttributedMissed, l.tr);
    }
    if l.first {
      BumpAt(d, FirstSamples, 1, q);
      BumpAt(Bump(d, FirstSamples, 1), FirstInput, l.sample.input, q);
    }
  }

  lemma NoneFresh(flips: set<Cause>)
    requires flips == {}
    ensures First(PRIORITY, flips).None?
  {
  }

  lemma {:induction false} RepaidClaims(folds: seq<Fold>, s: Sample)
    ensures Repaid(ClaimAll(folds, s)) == Repaid(folds)
  {
    if folds != [] {
      var n := |folds| - 1;
      RepaidClaims(folds[..n], s);
      assert ClaimAll(folds, s)[..n] == ClaimAll(folds[..n], s);
    }
  }

  /** Numbers are unique, so the re-paid tokens reach exactly one fold. */
  lemma {:induction false} RepaidOnce(folds: seq<Fold>, owner: Option<nat>, n: nat)
    requires forall i :: 0 <= i < |folds| ==> folds[i].num == i + 1
    ensures Repaid(Repay(folds, owner, n)) ==
      Repaid(folds) + (if owner.Some? && 1 <= owner.value <= |folds| then n else 0)
  {
    if folds != [] {
      var k := |folds| - 1;
      RepaidOnce(folds[..k], owner, n);
      assert Repay(folds, owner, n)[..k] == Repay(folds[..k], owner, n);
    }
  }

  lemma EachFoldOk(folds: seq<Fold>, s: Sample, owner: Option<nat>, n: nat)
    requires forall i :: 0 <= i < |folds| ==> folds[i].num == i + 1 && FoldOk(folds[i])
    ensures var r := Repay(ClaimAll(folds, s), owner, n);
      |r| == |folds| && forall i :: 0 <= i < |r| ==> r[i].num == i + 1 && FoldOk(r[i])
  {
    hide FoldWarm;
    var c := ClaimAll(folds, s);
    forall i | 0 <= i < |folds| ensures c[i].num == i + 1 && FoldOk(c[i]) {
      assert c[i] == Claim(folds[i], s);
    }
  }

  lemma FoldsStayOk(led: Ledger, s: Sample)
    requires Sound(led)
    ensures var r := FoldsAfter(led, s);
      && |r| == |led.folds| && (forall i :: 0 <= i < |r| ==> r[i].num == i + 1 && FoldOk(r[i]))
      && Repaid(r) == Repaid(led.folds) + NewLine(led, s).cr
  {
    hide SplitOf, TotalsMatch, LineOk, Flips, CauseOf, FoldOk, Claim, ClaimAll, Repay, Repaid;
    if Measured(s) {
      var d := SplitOf(led, s);
      EachFoldOk(led.folds, s, d.owner, d.cr);
      RepaidClaims(led.folds, s);
      RepaidOnce(ClaimAll(led.folds, s), d.owner, d.cr);
    }
  }

  lemma RecordStaysSound(led: Ledger, s: Sample)
    requires Sound(led)
    ensures Sound(Record(led, s))
  {
    hide NewLine, AggAfter, FoldsAfter, LineOk, FoldOk, Total, Share, Repaid, At;
    var l, next := NewLine(led, s), Record(led, s);
    NewLineOk(led, s);
    NewLineShape(led, s);
    FoldsStayOk(led, s);
    forall q ensures At(next.agg, q) == Total(next.lines, q) {
      AggMoves(led.agg, l, q);
      TotalLast(led.lines, l, q);
    }
    AggMoves(led.agg, l, CompRepay);
    CompShare(l);
  }

  lemma CompShare(l: Line)
    ensures Share(l, CompRepay) == l.cr
  {
  }

  lemma NewLineShape(led: Ledger, s: Sample)
    ensures var l := NewLine(led, s);
      l.num == |led.lines| + 1 && l.sample == s && l.prov.None? && !l.seam && !l.aborted
  {
  }

  lemma CutStaysSound(led: Ledger, at: int, start: Option<nat>, viewAfter: Option<nat>)
    requires Sound(led)
    ensures Sound(Cut(led, at, start, viewAfter))
  {
    hide LineOk, Total, At;
    var next := Cut(led, at, start, viewAfter);
    assert next.folds[..|led.folds|] == led.folds;
  }

  // ---- detecting keeps it ----

  /** The last line has not been through the detector yet. */
  predicate Unmarked(led: Ledger) {
    led.lines != [] && var l := led.lines[|led.lines| - 1]; l.prov.None? && !l.seam && !l.aborted
  }

  lemma AbortMoves(agg: Totals, l: Line, e: Evidence, q: Counter)
    requires LineOk(l) && !l.aborted
    ensures var near := Examined(l) && NearAbort(l, e);
      && LineOk(l.(aborted := near))
      && At(if near then Bump(agg, AbortCorrelated, 1) else agg, q) + Share(l, q)
         == At(agg, q) + Share(l.(aborted := near), q)
  {
    hide First, Bump, At, NearAbort, CachedOf, Max0;
    BumpAt(agg, AbortCorrelated, 1, q);
  }

  /** The line with the arm written on it. */
  function BookIn(l: Line, arm: Arm): Line {
    if arm == Suspect then l.(seam := true) else l.(prov := Some(arm))
  }

  lemma BookMoves(agg: Totals, l: Line, arm: Arm, q: Counter)
    requires LineOk(l) && l.prov.None? && !l.seam && Unexplained(l)
    ensures LineOk(BookIn(l, arm))
    ensures At(Bump(Bump(agg, ArmCount(arm), 1), ArmMissed(arm), l.tr), q) + Share(l, q)
            == At(agg, q) + Share(BookIn(l, arm), q)
  {
    hide First, Bump, At, CachedOf, Max0;
    BumpAt(agg, ArmCount(arm), 1, q);
    BumpAt(Bump(agg, ArmCount(arm), 1), ArmMissed(arm), l.tr, q);
  }

  lemma MarkMoves(agg: Totals, l: Line, e: Evidence, gap: int, q: Counter)
    requires LineOk(l) && l.prov.None? && !l.seam && !l.aborted
    ensures LineOk(Mark(l, e, gap))
    ensures At(SeamAgg(agg, l, e, gap), q) + Share(l, q) == At(agg, q) + Share(Mark(l, e, gap), q)
  {
    hide LineOk, Share, ArmOf, Bump, At, NearAbort, OutOfOrder;
    AbortMoves(agg, l, e, q);
    if Booked(l, e) {
      var near := Examined(l) && NearAbort(l, e);
      BookMoves(if near then Bump(agg, AbortCorrelated, 1) else agg, l.(aborted := near), ArmOf(e, gap), q);
    }
  }

  lemma DetectStaysSound(led: Ledger, e: Evidence)
    requires Sound(led) && Unmarked(led)
    ensures Sound(Detect(led, e))
  {
    hide Mark, SeamAgg, LineOk, FoldOk, Total, Share, Repaid, At;
    var n := |led.lines| - 1;
    var l, gap, front := led.lines[n], GapBefore(led.lines), led.lines[..n];
    var next := Detect(led, e);
    assert led.lines == front + [l];
    MarkKeepsNumber(l, e, gap);
    MarkMoves(led.agg, l, e, gap, CompRepay);
    forall q ensures At(next.agg, q) == Total(next.lines, q) {
      MarkMoves(led.agg, l, e, gap, q);
      TotalLast(front, l, q);
      TotalLast(front, Mark(l, e, gap), q);
    }
    CompShare(l);
    CompShare(Mark(l, e, gap));
  }

  lemma MarkKeepsNumber(l: Line, e: Evidence, gap: int)
    ensures var m := Mark(l, e, gap); m.num == l.num && m.cr == l.cr && m.sample == l.sample && m.tr == l.tr
    ensures var m := Mark(l, e, gap); m.flips == l.flips && m.cause == l.cause && m.missed == l.missed && m.nc == l.nc
  {
    hide ArmOf, Booked;
  }

  // ---- every run ----

  lemma {:induction false} RunSound(events: seq<Event>)
    ensures Sound(Run(events))
  {
    hide Record, Detect, Cut, Sound;
    if events == [] {
      EmptySound();
    } else {
      var before, ev := events[..|events| - 1], events[|events| - 1];
      RunSound(before);
      match ev
      case FoldCut(at, start, viewAfter) => CutStaysSound(Run(before), at, start, viewAfter);
      case Settled(s, e) =>
        RecordStaysSound(Run(before), s);
        RecordUnmarked(Run(before), s);
        DetectStaysSound(Record(Run(before), s), e);
    }
  }

  lemma EmptySound()
    ensures Sound(Empty)
  {
  }

  lemma RecordUnmarked(led: Ledger, s: Sample)
    ensures Unmarked(Record(led, s))
  {
    hide SplitOf, Flips, CauseOf, FoldsAfter, AggAfter, OpenAfter;
  }

  // ---- what the sums say ----

  function ChargedSum(lines: seq<Line>): nat {
    Total(lines, SwitchMissed(Restart)) + Total(lines, SwitchMissed(Model)) + Total(lines, SwitchMissed(Effort))
    + Total(lines, SwitchMissed(Key)) + Total(lines, SwitchMissed(Prompt)) + Total(lines, SwitchMissed(Projection))
    + Total(lines, SwitchMissed(Wire)) + Total(lines, SwitchMissed(Upstream))
  }

  function BookedSum(lines: seq<Line>): nat {
    Total(lines, ArmMissed(Ttl)) + Total(lines, ArmMissed(Side)) + Total(lines, ArmMissed(Rewind))
    + Total(lines, ArmMissed(Client)) + Total(lines, ArmMissed(OrphanSweep)) + Total(lines, ArmMissed(Suspect))
  }

  predicate Overcached(s: Sample) {
    Measured(s) && CachedOf(s) > s.input
  }

  lemma {:induction false} LinesPartition(lines: seq<Line>)
    requires forall i :: 0 <= i < |lines| ==> LineOk(lines[i])
    ensures ChargedSum(lines) == Total(lines, AttributedMissed)
    ensures BookedSum(lines) + Total(lines, AttributedMissed) <= Total(lines, TtlRepay)
  {
    if lines != [] {
      LinesPartition(lines[..|lines| - 1]);
      OneBucket(lines[|lines| - 1]);
    }
  }

  lemma OneCauseBucket(l: Line)
    ensures Share(l, SwitchMissed(Restart)) + Share(l, SwitchMissed(Model)) + Share(l, SwitchMissed(Effort))
            + Share(l, SwitchMissed(Key)) + Share(l, SwitchMissed(Prompt)) + Share(l, SwitchMissed(Projection))
            + Share(l, SwitchMissed(Wire)) + Share(l, SwitchMissed(Upstream)) == Share(l, AttributedMissed)
  {
    hide First, Measured, CachedOf;
    if l.cause.Some? {
      var c := l.cause.value;
      assert c.Restart? || c.Model? || c.Effort? || c.Key? || c.Prompt? || c.Projection? || c.Wire? || c.Upstream?;
    }
  }

  lemma OneArm(l: Line)
    requires LineOk(l)
    ensures Share(l, ArmMissed(Ttl)) + Share(l, ArmMissed(Side)) + Share(l, ArmMissed(Rewind))
            + Share(l, ArmMissed(Client)) + Share(l, ArmMissed(OrphanSweep)) + Share(l, ArmMissed(Suspect))
            + Share(l, AttributedMissed) <= Share(l, TtlRepay)
  {
    hide Unexplained, First, Measured, CachedOf, Max0;
  }

  lemma OneBucket(l: Line)
    requires LineOk(l)
    ensures Share(l, SwitchMissed(Restart)) + Share(l, SwitchMissed(Model)) + Share(l, SwitchMissed(Effort))
            + Share(l, SwitchMissed(Key)) + Share(l, SwitchMissed(Prompt)) + Share(l, SwitchMissed(Projection))
            + Share(l, SwitchMissed(Wire)) + Share(l, SwitchMissed(Upstream)) == Share(l, AttributedMissed)
    ensures Share(l, ArmMissed(Ttl)) + Share(l, ArmMissed(Side)) + Share(l, ArmMissed(Rewind))
            + Share(l, ArmMissed(Client)) + Share(l, ArmMissed(OrphanSweep)) + Share(l, ArmMissed(Suspect))
            + Share(l, AttributedMissed) <= Share(l, TtlRepay)
  {
    hide Share;
    OneCauseBucket(l);
    OneArm(l);
  }

  lemma {:induction false} LinesClose(lines: seq<Line>)
    requires forall i :: 0 <= i < |lines| ==> LineOk(lines[i])
    ensures var split := Total(lines, NewContent) + Total(lines, CompRepay) + Total(lines, TtlRepay);
      var paid := Total(lines, Input) - Total(lines, Cached);
      paid <= split && (paid == split <==> forall i :: 0 <= i < |lines| ==> !Overcached(lines[i].sample))
  {
    if lines != [] {
      var front, l := lines[..|lines| - 1], lines[|lines| - 1];
      LinesClose(front);
      LineCloses(l);
      hide LineOk, Overcached, Share;
      assert forall i :: 0 <= i < |front| ==> front[i] == lines[i];
    }
  }

  lemma LineCloses(l: Line)
    requires LineOk(l)
    ensures var split := Share(l, NewContent) + Share(l, CompRepay) + Share(l, TtlRepay);
      var paid := Share(l, Input) - Share(l, Cached);
      paid <= split && (paid == split <==> !Overcached(l.sample))
  {
    hide Unexplained;
  }

  /** The samples of a run, in the order they settle. */
  function Samples(events: seq<Event>): seq<Sample> {
    if events == [] then []
    else
      var last := events[|events| - 1];
      Samples(events[..|events| - 1]) + (if last.Settled? then [last.sample] else [])
  }

  lemma {:induction false} LinesAreSamples(events: seq<Event>)
    ensures |Run(events).lines| == |Samples(events)|
    ensures forall i :: 0 <= i < |Samples(events)| ==> Run(events).lines[i].sample == Samples(events)[i]
  {
    if events != [] {
      hide NewLine, FoldsAfter, AggAfter, OpenAfter, SeamAgg, KnownAfter, Mark;
      var before, ev := events[..|events| - 1], events[|events| - 1];
      LinesAreSamples(before);
      if ev.Settled? {
        var led := Run(before);
        NewLineShape(led, ev.sample);
        var mid := Record(led, ev.sample);
        MarkKeepsNumber(mid.lines[|mid.lines| - 1], ev.evidence, GapBefore(mid.lines));
      }
    }
  }

  /**
   * Over every run the uncached input of the measured samples is exactly new content plus compression re-pay
   * plus residual, exactly when no provider reported more cached than input tokens.
   */
  lemma RunCloses(events: seq<Event>)
    ensures var agg := Run(events).agg;
      At(agg, Input) - At(agg, Cached) == At(agg, NewContent) + At(agg, CompRepay) + At(agg, TtlRepay)
      <==> forall s :: s in Samples(events) ==> !Overcached(s)
  {
    hide Run, Samples, LineOk, Share, At, Overcached;
    var led := Run(events);
    RunSound(events);
    LinesClose(led.lines);
    LinesAreSamples(events);
    assert TotalsMatch(led);
    forall s | s in Samples(events) ensures exists i :: 0 <= i < |led.lines| && led.lines[i].sample == s {
      var i :| 0 <= i < |Samples(events)| && Samples(events)[i] == s;
      assert led.lines[i].sample == s;
    }
    forall i | 0 <= i < |led.lines| ensures led.lines[i].sample in Samples(events) {
    }
  }

  /** One report with more cached than input tokens, and the ledger no longer closes. */
  lemma OvercachedBreaks(e: Evidence)
    ensures var agg := Run([Settled(Sample(0, 1, Some(2), 0, map[], "boot", None), e)]).agg;
      At(agg, Input) - At(agg, Cached) != At(agg, NewContent) + At(agg, CompRepay) + At(agg, TtlRepay)
  {
    hide Run, At;
    var s := Sample(0, 1, Some(2), 0, map[], "boot", None);
    var events := [Settled(s, e)];
    assert events[..0] == [] && events[0] == Settled(s, e);
    assert Samples(events[..0]) == [];
    assert Samples(events) == Samples(events[..0]) + [s];
    assert s in Samples(events) && Overcached(s);
    RunCloses(events);
  }

  /**
   * Over every run the eight cause buckets add up to the attributed residual, the remaining residual is never
   * clipped, and the six seam arms together never exceed it.
   */
  lemma RunPartitions(events: seq<Event>)
    ensures var agg := Run(events).agg;
      At(agg, SwitchMissed(Restart)) + At(agg, SwitchMissed(Model)) + At(agg, SwitchMissed(Effort))
      + At(agg, SwitchMissed(Key)) + At(agg, SwitchMissed(Prompt)) + At(agg, SwitchMissed(Projection))
      + At(agg, SwitchMissed(Wire)) + At(agg, SwitchMissed(Upstream)) == At(agg, AttributedMissed)
    ensures var agg := Run(events).agg;
      At(agg, ArmMissed(Ttl)) + At(agg, ArmMissed(Side)) + At(agg, ArmMissed(Rewind)) + At(agg, ArmMissed(Client))
      + At(agg, ArmMissed(OrphanSweep)) + At(agg, ArmMissed(Suspect)) <= At(agg, TtlRepay) - At(agg, AttributedMissed)
  {
    hide Run, LineOk, Share, Total, At;
    var led := Run(events);
    RunSound(events);
    LinesPartition(led.lines);
    assert TotalsMatch(led);
  }

  /** No line is booked twice, and none is both booked and charged. */
  lemma RunArmsDisjoint(events: seq<Event>, i: nat, a: Arm, b: Arm)
    requires i < |Run(events).lines| && BookedAs(Run(events).lines[i], a)
    ensures Run(events).lines[i].cause.None? && (BookedAs(Run(events).lines[i], b) ==> a == b)
  {
    hide Run, Total, At, Share, Unexplained;
    RunSound(events);
    assert LineOk(Run(events).lines[i]);
  }

  /** Every re-paid token has one fold that owns it, and no fold claims more than four samples. */
  lemma RunFoldsOwn(events: seq<Event>)
    ensures Repaid(Run(events).folds) == At(Run(events).agg, CompRepay)
    ensures forall f :: f in Run(events).folds ==> FoldOk(f)
  {
    hide Run, Total, At, Share, LineOk, Repaid;
    RunSound(events);
  }
}
