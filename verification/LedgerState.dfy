/** The ledger as the program keeps it: one object whose fields every settle updates. */
module LedgerState {
  import opened Texts
  import opened Ledger
  import opened LedgerHistory

  /** A cold window dimension's own test and the fixed priority, written as a chain. */
  function Chain(causes: set<Cause>): Option<Cause> {
    if Restart in causes then Some(Restart)
    else if Model in causes then Some(Model)
    else if Effort in causes then Some(Effort)
    else if Key in causes then Some(Key)
    else if Prompt in causes then Some(Prompt)
    else if Projection in causes then Some(Projection)
    else if Wire in causes then Some(Wire)
    else if Upstream in causes then Some(Upstream)
    else None
  }

  lemma ChainIsFirst(causes: set<Cause>)
    ensures Chain(causes) == First(PRIORITY, causes)
  {
    hide First;
    FirstIsStrongest(causes);
    if Chain(causes).None? {
      forall c: Cause ensures c !in causes {
      }
    }
  }

  class CacheLedger {
    var lines: seq<Line>
    var folds: seq<Fold>
    var agg: Totals
    var known: map<Part, string>
    var open: map<Cause, nat>
    var lastBoot: Option<string>

    function Value(): Ledger
      reads this
    {
      Ledger(lines, folds, agg, known, open, lastBoot)
    }

    constructor ()
      ensures Value() == Empty
    {
      lines, folds, agg, known, open, lastBoot := [], [], map[], map[], map[], None;
    }

    method PushFold(at: int, start: Option<nat>, viewAfter: Option<nat>)
      modifies this
      ensures Value() == Cut(old(Value()), at, start, viewAfter)
    {
      folds := folds + [Fold(|folds| + 1, at, start, viewAfter, 0, false, 0)];
    }

    /** pendRefs. */
    method PendingFolds(s: Sample) returns (pending: seq<Fold>)
      ensures pending == Pending(folds, s)
    {
      hide Claimable;
      pending := [];
      for i := 0 to |folds|
        invariant pending == Pending(folds[..i], s)
      {
        assert folds[..i + 1][..i] == folds[..i];
        if Claimable(folds[i], s) {
          pending := pending + [folds[i]];
        }
      }
      assert folds[..|folds|] == folds;
    }

    /** The owner search of decomposeSample. */
    static method EarliestFold(pending: seq<Fold>, s: Sample) returns (best: Fold)
      requires pending != []
      ensures best == Earliest(pending, s)
    {
      hide StartOf;
      best := pending[0];
      for i := 1 to |pending|
        invariant best == Earliest(pending[..i], s)
      {
        assert pending[..i + 1][..i] == pending[..i];
        if StartOf(pending[i], s) < StartOf(best, s) {
          best := pending[i];
        }
      }
      assert pending[..|pending|] == pending;
    }

    /** decomposeSample and the rebooking of a first sample. */
    method SplitSample(s: Sample) returns (d: Split)
      ensures d == SplitOf(Value(), s)
    {
      hide StartOf, Claimable, Pending, Earliest;
      var pending := PendingFolds(s);
      var missed := Max0(s.input - CachedOf(s));
      var nc := Min(missed, if lines != [] then Max0(s.input - lines[|lines| - 1].sample.input) else 0);
      var rest := missed - nc;
      d := Split(missed, nc, 0, rest, None);
      if rest > 0 && pending != [] {
        var best := EarliestFold(pending, s);
        var cr := Min(rest, Max0(s.input - StartOf(best, s) - nc));
        d := Split(missed, nc, cr, rest - cr, if cr > 0 then Some(best.num) else None);
      }
      if lines == [] && Measured(s) {
        d := d.(nc := d.nc + d.tr, tr := 0);
      }
    }

    /** A measured sample is claimed by every fold whose cold tail it falls into; a warm one retires them all. */
    method ClaimFolds(s: Sample)
      modifies this`folds
      ensures folds == ClaimAll(old(folds), s)
    {
      ghost var was := folds;
      for i := 0 to |folds|
        invariant |folds| == |was|
        invariant forall k :: i <= k < |was| ==> folds[k] == was[k]
        invariant forall k :: 0 <= k < i ==> folds[k] == Claimed(was[k], s)
      {
        var f := folds[i];
        if Claimable(f, s) {
          folds := folds[i := f.(claims := f.claims + 1, retired := f.claims + 1 >= FOLD_CLAIM_COLD_ROUNDS)];
        }
      }
      if FoldWarm(s) {
        ghost var claimed := folds;
        for i := 0 to |folds|
          invariant |folds| == |was|
          invariant forall k :: i <= k < |was| ==> folds[k] == claimed[k]
          invariant forall k :: 0 <= k < i ==> folds[k] == Claim(was[k], s)
        {
          if folds[i].at <= s.at && !folds[i].retired {
            folds := folds[i := folds[i].(retired := true)];
          }
        }
      }
      assert folds == ClaimAll(was, s);
    }

    method RepayOwner(owner: Option<nat>, n: nat)
      requires forall i, j :: 0 <= i < j < |folds| ==> folds[i].num != folds[j].num
      modifies this`folds
      ensures folds == Repay(old(folds), owner, n)
    {
      ghost var was := folds;
      var i := 0;
      while i < |folds| && Some(folds[i].num) != owner
        invariant 0 <= i <= |folds|
        invariant forall k :: 0 <= k < i ==> Some(folds[k].num) != owner
      {
        i := i + 1;
      }
      if i < |folds| {
        folds := folds[i := folds[i].(repaid := folds[i].repaid + n)];
      }
      assert folds == Repay(was, owner, n);
    }

    method Count(q: Counter, n: nat)
      modifies this`agg
      ensures agg == Bump(old(agg), q, n)
    {
      agg := agg[q := At(agg, q) + n];
    }

    /** The counters one new line moves. */
    method CountLine(l: Line)
      modifies this`agg
      ensures agg == AggAfter(old(agg), l)
    {
      hide First;
      Count(Requests, 1);
      Count(Output, l.sample.output);
      if !Measured(l.sample) {
        Count(UnknownInput, l.sample.input);
        Count(UnknownSamples, 1);
        return;
      }
      Count(Input, l.sample.input);
      Count(Cached, CachedOf(l.sample));
      Count(NewContent, l.nc);
      Count(CompRepay, l.cr);
      Count(TtlRepay, l.tr);
      ChainIsFirst(l.flips);
      var newest := Chain(l.flips);
      if newest.Some? {
        Count(Switches(newest.value), 1);
      }
      if l.cause.Some? {
        Count(SwitchMissed(l.cause.value), l.tr);
        Count(AttributedMissed, l.tr);
      }
      if l.first {
        Count(FirstSamples, 1);
        Count(FirstInput, l.sample.input);
      }
    }

    method AdvanceWindows(s: Sample, flips: set<Cause>, num: nat)
      modifies this`open
      ensures open == Windows(old(open), s, flips, num)
    {
      if Warm(s) {
        open := map[];
      } else {
        open := map c | c in open && num - open[c] <= SWITCH_COLD_ROUNDS :: open[c];
      }
      open := open + map c | c in flips && c != Restart :: num;
    }

    method PickCause(s: Sample, flips: set<Cause>, num: nat) returns (cause: Option<Cause>)
      requires flips == Flips(Value(), s) && num == |lines| + 1
      ensures cause == CauseOf(Value(), s)
    {
      hide First, Flips, Continuing;
      ChainIsFirst(flips);
      ChainIsFirst(Continuing(open, s, num));
      cause := if !Measured(s) then None
               else if Chain(flips).Some? then Chain(flips)
               else Chain(Continuing(open, s, num));
    }

    /** The split of the sample, after its folds have claimed it; an unmeasured sample splits into nothing. */
    method SettleFolds(s: Sample) returns (d: Split)
      requires forall i, j :: 0 <= i < j < |folds| ==> folds[i].num != folds[j].num
      modifies this`folds
      ensures folds == FoldsAfter(old(Value()), s)
      ensures d == if Measured(s) then SplitOf(old(Value()), s) else Split(0, 0, 0, 0, None)
    {
      hide SplitOf, ClaimAll, Repay;
      ghost var was := folds;
      d := SplitSample(s);
      if Measured(s) {
        ClaimFolds(s);
        ClaimKeepsNumbers(was, s);
        RepayOwner(d.owner, d.cr);
      } else {
        d := Split(0, 0, 0, 0, None);
      }
    }

    /** recordCacheSample. */
    method RecordCacheSample(s: Sample)
      requires forall i, j :: 0 <= i < j < |folds| ==> folds[i].num != folds[j].num
      modifies this
      ensures Value() == Record(old(Value()), s)
    {
      hide SplitOf, FoldsAfter, Flips, CauseOf, AggAfter, Windows, NewLine;
      ghost var was := Value();
      var d := SettleFolds(s);
      var num := |lines| + 1;
      CausesIgnoreFolds(was, Value(), s);
      var flips := Flips(Value(), s);
      var cause := PickCause(s, flips, num);
      var l := Line(num, s, d.missed, d.nc, d.cr, d.tr, d.owner, flips, cause, lines == [] && Measured(s), None,
                    false, false);
      LineBuilt(was, s);
      lines := lines + [l];
      lastBoot := Some(s.boot);
      CountLine(l);
      if Measured(s) {
        AdvanceWindows(s, flips, num);
        known := known + s.parts;
      }
    }

    /** detectSeam. */
    method DetectSeam(e: Evidence)
      modifies this
      ensures old(lines) == [] ==> Value() == old(Value())
      ensures old(lines) != [] ==> Value() == Detect(old(Value()), e)
    {
      hide ArmOf, NearAbort, OutOfOrder, Unexplained, Bump, Examined;
      if lines == [] {
        return;
      }
      var n := |lines| - 1;
      var gap := GapBefore(lines);
      var line := lines[n];
      assert lines == lines[..n] + [line];
      if !Examined(line) {
        return;
      }
      if NearAbort(line, e) {
        Count(AbortCorrelated, 1);
        line := line.(aborted := true);
      }
      if Unexplained(lines[n]) && !(e.bodies.Some? && OutOfOrder(e.bodies.value)) {
        var arm := ChooseArm(e, gap);
        Count(ArmCount(arm), 1);
        Count(ArmMissed(arm), line.tr);
        line := if arm == Suspect then line.(seam := true) else line.(prov := Some(arm));
      }
      lines := lines[..n] + [line];
    }
  }

  lemma {:induction false} DivergesAt(prev: seq<Text>, cur: seq<Text>, k: nat)
    requires k <= |prev| && k <= |cur| && prev[..k] == cur[..k]
    requires k == |prev| || k == |cur| || prev[k] != cur[k]
    ensures FirstDivergent(prev, cur) == if k < |prev| && k < |cur| then Some(k) else None
  {
    if k > 0 {
      assert prev[0] == prev[..k][0] && cur[0] == cur[..k][0];
      assert prev[1..][..k - 1] == prev[..k][1..] && cur[1..][..k - 1] == cur[..k][1..];
      DivergesAt(prev[1..], cur[1..], k - 1);
    }
  }

  method FirstDivergentInboundMsg(prev: seq<Text>, cur: seq<Text>) returns (k: Option<nat>)
    ensures k == FirstDivergent(prev, cur)
  {
    var i := 0;
    while i < |prev| && i < |cur| && prev[i] == cur[i]
      invariant 0 <= i <= |prev| && i <= |cur| && prev[..i] == cur[..i]
    {
      i := i + 1;
    }
    DivergesAt(prev, cur, i);
    k := if i < |prev| && i < |cur| then Some(i) else None;
  }

  /** The arm of a booked miss: the two outbound bodies, then the client's own lists, then the sweeps. */
  method ChooseArm(e: Evidence, gap: int) returns (arm: Arm)
    ensures arm == ArmOf(e, gap)
  {
    hide FirstDivergent;
    if e.bodies.Some? {
      var prev, cur, f := e.bodies.value.prev, e.bodies.value.cur, e.bodies.value.shape;
      var whole := prev.bytes <= SEAM_BODY_CAP && cur.bytes <= SEAM_BODY_CAP;
      var provider := if gap > PROVIDER_TTL_GAP_MS then Ttl else Side;
      if whole && f.prevMsgs > 0 && f.curMsgs < f.prevMsgs {
        return Rewind;
      }
      if cur.head < prev.head && f.lcp >= cur.head - 4 {
        return Rewind;
      }
      if f.lcp >= cur.head {
        return provider;
      }
      if whole && f.prevMsgs > 0 && f.msgIndex == Some(f.prevMsgs) && f.curMsgs > f.prevMsgs {
        return provider;
      }
      if prev.head < cur.head && f.lcp >= prev.head - 4 {
        if prev.msgs.Some? && cur.msgs.Some? && cur.msgs.value > prev.msgs.value {
          return provider;
        }
      }
    }
    if e.inbound.Some? && e.inbound.value.cur.msgs <= INBOUND_MSG_CAP && e.inbound.value.prev.msgs <= INBOUND_MSG_CAP {
      var k := FirstDivergentInboundMsg(e.inbound.value.prev.prints, e.inbound.value.cur.prints);
      if k.Some? && k.value < Min(e.inbound.value.prev.msgs, e.inbound.value.cur.msgs) {
        return Client;
      }
    }
    if e.sweeps > 0 {
      return OrphanSweep;
    }
    return Suspect;
  }

  lemma CausesIgnoreFolds(a: Ledger, b: Ledger, s: Sample)
    requires a.known == b.known && a.lines == b.lines && a.lastBoot == b.lastBoot && a.open == b.open
    ensures Flips(a, s) == Flips(b, s) && CauseOf(a, s) == CauseOf(b, s)
  {
    hide First, Continuing;
  }

  lemma LineBuilt(led: Ledger, s: Sample)
    ensures var d := if Measured(s) then SplitOf(led, s) else Split(0, 0, 0, 0, None);
      NewLine(led, s) == Line(|led.lines| + 1, s, d.missed, d.nc, d.cr, d.tr, d.owner, Flips(led, s), CauseOf(led, s),
                              led.lines == [] && Measured(s), None, false, false)
  {
    hide SplitOf, Flips, CauseOf;
  }

  lemma ClaimKeepsNumbers(folds: seq<Fold>, s: Sample)
    ensures forall i :: 0 <= i < |folds| ==> ClaimAll(folds, s)[i].num == folds[i].num
  {
  }
}
