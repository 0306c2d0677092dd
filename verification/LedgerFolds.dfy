/**
 * What a fold has claimed and what a line is charged to it, told by the events of the run alone: the cuts, and
 * the usage reports that settled after them.
 */
module LedgerFolds {
  import opened Texts
  import opened Ledger
  import opened LedgerTotals

  // ---- the history of one fold ----

  /** How many folds have been cut. */
  function Cuts(events: seq<Event>): (n: nat)
    ensures n <= |events|
  {
    if events == [] then 0 else Cuts(events[..|events| - 1]) + if events[|events| - 1].FoldCut? then 1 else 0
  }

  /** The measured reports that settle at or after a time. */
  function Seen(events: seq<Event>, at: int): seq<Sample> {
    if events == [] then []
    else
      var last := events[|events| - 1];
      Seen(events[..|events| - 1], at)
      + if last.Settled? && last.sample.cached.Some? && last.sample.at >= at then [last.sample] else []
  }

  /** At least 85 of 100 input tokens came from the cache. */
  predicate Recached(s: Sample) {
    s.cached.Some? && s.input > 0 && 100 * s.cached.value >= 85 * s.input
  }

  predicate NoneRecached(seen: seq<Sample>) {
    forall s :: s in seen ==> !Recached(s)
  }

  /** The reports up to the first that re-cached. */
  function ColdHead(seen: seq<Sample>): (n: nat)
    ensures n <= |seen|
  {
    if seen == [] || Recached(seen[0]) then 0 else 1 + ColdHead(seen[1..])
  }

  /** A fold claims the first report whatever it is, then cold ones only, and four at most. */
  function ClaimsAfter(seen: seq<Sample>): nat {
    if seen == [] then 0 else if Recached(seen[0]) then 1 else Min(4, ColdHead(seen))
  }

  /** The event cut fold number i + 1, and that is where the fold stands. */
  predicate FoldStands(f: Fold, cut: Event, i: nat, seen: seq<Sample>) {
    && cut.FoldCut? && f.num == i + 1 && f.at == cut.at && f.start == cut.start && f.viewAfter == cut.viewAfter
    && (f.retired <==> |seen| >= 4 || !NoneRecached(seen))
    && f.claims == ClaimsAfter(seen)
  }

  lemma {:induction false} ColdHeadGrows(seen: seq<Sample>, s: Sample)
    ensures NoneRecached(seen) ==> ColdHead(seen) == |seen|
    ensures ColdHead(seen + [s]) == if NoneRecached(seen) && !Recached(s) then |seen| + 1 else ColdHead(seen)
    ensures ColdHead(seen) == |seen| ==> NoneRecached(seen)
  {
    if seen != [] {
      assert (seen + [s])[1..] == seen[1..] + [s];
      ColdHeadGrows(seen[1..], s);
      assert seen == [seen[0]] + seen[1..];
    } else {
      assert (seen + [s])[1..] == [];
    }
  }

  /** One more report that reaches the fold. */
  lemma FoldClaims(f: Fold, cut: Event, i: nat, seen: seq<Sample>, s: Sample)
    requires FoldStands(f, cut, i, seen) && s.cached.Some? && f.at <= s.at
    ensures FoldStands(Claim(f, s), cut, i, seen + [s])
  {
    ColdHeadGrows(seen, s);
    assert FoldWarm(s) <==> Recached(s);
    assert NoneRecached(seen + [s]) <==> NoneRecached(seen) && !Recached(s);
    assert seen != [] ==> (seen + [s])[0] == seen[0];
  }

  lemma FoldSkips(f: Fold, s: Sample)
    ensures f.at > s.at ==> Claim(f, s) == f
  {
  }

  lemma RepaidStands(f: Fold, cut: Event, i: nat, seen: seq<Sample>, n: nat)
    requires FoldStands(f, cut, i, seen)
    ensures FoldStands(f.(repaid := n), cut, i, seen)
  {
  }

  /** Where fold i stands after one more report. */
  lemma ReportMovesFold(led: Ledger, s: Sample, cut: Event, i: nat, seen: seq<Sample>)
    requires i < |led.folds| && FoldStands(led.folds[i], cut, i, seen)
    ensures var next := FoldsAfter(led, s);
      && |next| == |led.folds|
      && FoldStands(next[i], cut, i, seen + if s.cached.Some? && s.at >= cut.at then [s] else [])
  {
    hide Claim, SplitOf, FoldStands;
    var f := led.folds[i];
    StandsWhere(f, cut, i, seen);
    if s.cached.Some? {
      FoldSkips(f, s);
      if f.at <= s.at {
        FoldClaims(f, cut, i, seen, s);
      }
      var claimed := ClaimAll(led.folds, s);
      var c := claimed[i];
      assert c == Claim(f, s);
      assert seen + [] == seen;
      var d := SplitOf(led, s);
      RepaidStands(c, cut, i, seen + if s.at >= cut.at then [s] else [], c.repaid + d.cr);
    } else {
      assert seen + [] == seen;
    }
  }

  lemma StandsWhere(f: Fold, cut: Event, i: nat, seen: seq<Sample>)
    requires FoldStands(f, cut, i, seen)
    ensures cut.FoldCut? && f.at == cut.at && f.num == i + 1
  {
  }

  lemma AppliedFolds(led: Ledger, ev: Event)
    ensures ev.FoldCut? ==>
      Apply(led, ev).folds == led.folds + [Fold(|led.folds| + 1, ev.at, ev.start, ev.viewAfter, 0, false, 0)]
    ensures ev.Settled? ==> Apply(led, ev).folds == FoldsAfter(led, ev.sample)
  {
    hide NewLine, FoldsAfter, AggAfter, KnownAfter, OpenAfter, Mark, SeamAgg;
  }

  lemma {:induction false} FoldsAreCuts(events: seq<Event>)
    ensures |Run(events).folds| == Cuts(events)
  {
    if events != [] {
      hide Apply;
      FoldsAreCuts(events[..|events| - 1]);
      AppliedFolds(Run(events[..|events| - 1]), events[|events| - 1]);
    }
  }

  lemma SeenGrows(events: seq<Event>, p: nat, at: int)
    requires p + 1 < |events|
    ensures var last := events[|events| - 1];
      Seen(events[p + 1..], at) == Seen(events[..|events| - 1][p + 1..], at)
        + if last.Settled? && last.sample.cached.Some? && last.sample.at >= at then [last.sample] else []
  {
    var tail := events[p + 1..];
    assert tail[..|tail| - 1] == events[..|events| - 1][p + 1..];
    assert tail[|tail| - 1] == events[|events| - 1];
  }

  lemma {:induction false} CutsGrow(events: seq<Event>, p: nat)
    requires p < |events| && events[p].FoldCut?
    ensures Cuts(events[..p]) < Cuts(events)
    decreases |events|
  {
    if p < |events| - 1 {
      assert events[..|events| - 1][..p] == events[..p];
      CutsGrow(events[..|events| - 1], p);
    }
  }

  /**
   * In every run each fold stands where its reports put it: it is retired exactly when four measured reports
   * have settled since it was cut, or one that re-cached, and it has claimed exactly its cold tail.
   */
  lemma {:induction false} FoldHistory(events: seq<Event>, p: nat)
    requires p < |events| && events[p].FoldCut?
    ensures var i := Cuts(events[..p]);
      && i < |Run(events).folds|
      && FoldStands(Run(events).folds[i], events[p], i, Seen(events[p + 1..], events[p].at))
    decreases |events|
  {
    hide Apply, FoldStands;
    var n := |events| - 1;
    var i, cut := Cuts(events[..p]), events[p];
    var before, ev := events[..n], events[n];
    var led := Run(before);
    AppliedFolds(led, ev);
    FoldsAreCuts(before);
    if p == n {
      NewFoldStands(led, cut, i);
      assert events[p + 1..] == [];
    } else {
      assert before[..p] == events[..p];
      FoldHistory(before, p);
      CutsGrow(before, p);
      SeenGrows(events, p, cut.at);
      var seen := Seen(before[p + 1..], cut.at);
      if ev.Settled? {
        ReportMovesFold(led, ev.sample, cut, i, seen);
      } else {
        assert seen + [] == seen;
      }
    }
  }

  lemma NewFoldStands(led: Ledger, cut: Event, i: nat)
    requires cut.FoldCut? && i == |led.folds|
    ensures FoldStands(Fold(|led.folds| + 1, cut.at, cut.start, cut.viewAfter, 0, false, 0), cut, i, [])
  {
  }

  // ---- what a report is charged ----

  /** The cut's fold waits for the report: fewer than four so far, none of them re-cached, nor this one but the first. */
  predicate Awaits(events: seq<Event>, p: nat, s: Sample) {
    && p < |events| && events[p].FoldCut? && events[p].at <= s.at
    && var seen := Seen(events[p + 1..], events[p].at);
       |seen| < 4 && NoneRecached(seen) && (seen == [] || !Recached(s))
  }

  /** The first folded token; a prefix measured on the wire can only bring it forward, on a big miss. */
  function StartFor(cut: Event, s: Sample): nat
    requires cut.FoldCut?
  {
    var cached := if s.cached.Some? then s.cached.value else 0;
    if s.cached.Some? && s.input - cached > 8192 && 10 * (s.input - cached) > 3 * s.input && s.prefix.Some?
    then if cut.start.Some? && cut.start.value < s.prefix.value then cut.start.value else s.prefix.value
    else if cut.start.Some? then cut.start.value
    else if cut.viewAfter.Some? then cut.viewAfter.value
    else 0
  }

  /** The fold that starts first among those that wait, the oldest of them on a tie. */
  predicate StartsFirst(events: seq<Event>, p: nat, s: Sample) {
    && Awaits(events, p, s)
    && forall q :: 0 <= q < |events| && Awaits(events, q, s) ==>
         StartFor(events[p], s) <= StartFor(events[q], s)
         && (q < p ==> StartFor(events[p], s) < StartFor(events[q], s))
  }

  function AtLeast0(n: int): nat {
    if n >= 0 then n else 0
  }

  /** The tokens a measured report had to pay again for a fold that starts at x, once its growth is paid. */
  function RepaidBehind(x: nat, input: nat, missed: nat, grown: nat): nat
    requires grown <= missed
  {
    if missed - grown <= AtLeast0(input - x - grown) then missed - grown else AtLeast0(input - x - grown)
  }

  lemma ClaimableIsAwaited(events: seq<Event>, p: nat, f: Fold, i: nat, s: Sample)
    requires p < |events| && events[p].FoldCut? && FoldStands(f, events[p], i, Seen(events[p + 1..], events[p].at))
    ensures Claimable(f, s) <==> Awaits(events, p, s)
    ensures StartOf(f, s) == StartFor(events[p], s)
  {
    var seen := Seen(events[p + 1..], events[p].at);
    assert FoldWarm(s) <==> Recached(s);
    ClaimsNothing(seen);
  }

  lemma ClaimsNothing(seen: seq<Sample>)
    ensures ClaimsAfter(seen) == 0 <==> seen == []
  {
  }

  /** Fold k is claimable and starts before every older claimable one, and no later than any newer. */
  predicate FirstStart(folds: seq<Fold>, k: nat, s: Sample) {
    && k < |folds| && Claimable(folds[k], s)
    && forall j :: 0 <= j < |folds| && Claimable(folds[j], s) ==>
         StartOf(folds[k], s) <= StartOf(folds[j], s) && (j < k ==> StartOf(folds[k], s) < StartOf(folds[j], s))
  }

  lemma FirstStartGrows(folds: seq<Fold>, k: nat, last: Fold, s: Sample)
    requires FirstStart(folds, k, s)
    ensures var next := if Claimable(last, s) && StartOf(last, s) < StartOf(folds[k], s) then |folds| else k;
      FirstStart(folds + [last], next, s)
  {
    hide Claimable, StartOf;
  }

  lemma OneStart(folds: seq<Fold>, last: Fold, s: Sample)
    requires (forall j :: 0 <= j < |folds| ==> !Claimable(folds[j], s)) && Claimable(last, s)
    ensures FirstStart(folds + [last], |folds|, s)
  {
    hide Claimable, StartOf;
  }

  lemma PendingLast(folds: seq<Fold>, last: Fold, s: Sample)
    ensures Pending(folds + [last], s) == Pending(folds, s) + if Claimable(last, s) then [last] else []
    ensures var more := Pending(folds, s) + [last];
      Earliest(more, s) ==
        if Pending(folds, s) == [] then last
        else if StartOf(last, s) < StartOf(Earliest(Pending(folds, s), s), s) then last
        else Earliest(Pending(folds, s), s)
  {
    hide Claimable, StartOf;
    assert (folds + [last])[..|folds|] == folds;
    var pending := Pending(folds, s);
    assert (pending + [last])[..|pending|] == pending;
  }

  lemma {:induction false} PendingEarliest(folds: seq<Fold>, s: Sample) returns (k: nat)
    requires folds != [] && Pending(folds, s) != []
    ensures FirstStart(folds, k, s) && Earliest(Pending(folds, s), s) == folds[k]
  {
    hide Claimable, StartOf, Pending, Earliest, FirstStart;
    var n := |folds| - 1;
    var front, last := folds[..n], folds[n];
    assert folds == front + [last];
    PendingLast(front, last, s);
    NonePending(front, s);
    assert Pending(front, s) + [] == Pending(front, s);
    if Pending(front, s) == [] {
      k := n;
      OneStart(front, last, s);
    } else {
      k := PendingEarliest(front, s);
      FirstStartIn(front, k, s);
      FirstStartGrows(front, k, last, s);
      if Claimable(last, s) && StartOf(last, s) < StartOf(front[k], s) {
        k := n;
      }
    }
  }

  lemma FirstStartIn(folds: seq<Fold>, k: nat, s: Sample)
    requires FirstStart(folds, k, s)
    ensures k < |folds|
  {
  }

  lemma {:induction false} NonePending(folds: seq<Fold>, s: Sample)
    ensures Pending(folds, s) == [] <==> forall j :: 0 <= j < |folds| ==> !Claimable(folds[j], s)
  {
    if folds != [] {
      hide Claimable;
      NonePending(folds[..|folds| - 1], s);
    }
  }

  /** The cut of a fold. */
  lemma {:induction false} CutOf(events: seq<Event>, i: nat) returns (p: nat)
    requires i < Cuts(events)
    ensures p < |events| && events[p].FoldCut? && Cuts(events[..p]) == i
  {
    var n := |events| - 1;
    if events[n].FoldCut? && Cuts(events[..n]) == i {
      p := n;
    } else {
      p := CutOf(events[..n], i);
      assert events[..n][..p] == events[..p];
    }
  }

  lemma {:induction false} CutsInOrder(events: seq<Event>, p: nat, q: nat)
    requires p < q <= |events| && events[p].FoldCut?
    ensures Cuts(events[..p]) < Cuts(events[..q])
  {
    assert events[..q][..p] == events[..p];
    CutsGrow(events[..q], p);
  }

  /** What one fold of a run waits for, told by its cut. */
  lemma FoldAwaits(events: seq<Event>, p: nat, s: Sample)
    requires p < |events| && events[p].FoldCut?
    ensures var folds, i := Run(events).folds, Cuts(events[..p]);
      && i < |folds| && folds[i].num == i + 1
      && (Claimable(folds[i], s) <==> Awaits(events, p, s))
      && StartOf(folds[i], s) == StartFor(events[p], s)
  {
    hide Run, Claimable, Awaits, StartOf, StartFor;
    FoldHistory(events, p);
    var i := Cuts(events[..p]);
    StandsWhere(Run(events).folds[i], events[p], i, Seen(events[p + 1..], events[p].at));
    ClaimableIsAwaited(events, p, Run(events).folds[i], i, s);
  }

  /** The owner a split would name, as a cut. */
  lemma EarliestCut(events: seq<Event>, s: Sample) returns (p: nat)
    requires Pending(Run(events).folds, s) != []
    ensures StartsFirst(events, p, s)
    ensures var f := Earliest(Pending(Run(events).folds, s), s);
      f.num == Cuts(events[..p]) + 1 && StartOf(f, s) == StartFor(events[p], s)
  {
    hide Run, Claimable, Awaits, StartOf, StartFor, Pending, Earliest;
    var folds := Run(events).folds;
    NonePending(folds, s);
    var k := PendingEarliest(folds, s);
    FoldsAreCuts(events);
    p := CutOf(events, k);
    FoldAwaits(events, p, s);
    forall q | 0 <= q < |events| && Awaits(events, q, s) ensures events[q].FoldCut? {
      AwaitsCut(events, q, s);
    }
    forall q | 0 <= q < |events| && Awaits(events, q, s)
      ensures StartFor(events[p], s) <= StartFor(events[q], s) && (q < p ==> StartFor(events[p], s) < StartFor(events[q], s))
    {
      FoldAwaits(events, q, s);
      if q < p {
        CutsInOrder(events, q, p);
      }
    }
  }

  lemma AwaitsCut(events: seq<Event>, p: nat, s: Sample)
    requires Awaits(events, p, s)
    ensures p < |events| && events[p].FoldCut?
  {
  }

  lemma NothingAwaits(events: seq<Event>, s: Sample)
    ensures Pending(Run(events).folds, s) == [] <==> forall p :: 0 <= p < |events| ==> !Awaits(events, p, s)
  {
    hide Run, Claimable, Awaits, StartOf, StartFor, Pending;
    var folds := Run(events).folds;
    NonePending(folds, s);
    if Pending(folds, s) != [] {
      var p := EarliestCut(events, s);
      AwaitsCut(events, p, s);
    }
    forall p | 0 <= p < |events| && Awaits(events, p, s) ensures exists j :: 0 <= j < |folds| && Claimable(folds[j], s) {
      AwaitsCut(events, p, s);
      FoldAwaits(events, p, s);
    }
  }

  /** How a measured report is split: its growth first, then the fold, then the rest. */
  ghost predicate SplitsAs(events: seq<Event>, s: Sample, d: Split) {
    var cached, before := if s.cached.Some? then s.cached.value else 0, Samples(events);
    var grown: nat := if before == [] then 0 else AtLeast0(s.input - before[|before| - 1].input);
    && d.missed == AtLeast0(s.input - cached)
    && var nc: nat := if grown <= d.missed then grown else d.missed;
    && (if forall p :: 0 <= p < |events| ==> !Awaits(events, p, s) then d.cr == 0 && d.owner == None
        else exists p: nat :: StartsFirst(events, p, s)
               && d.cr == RepaidBehind(StartFor(events[p], s), s.input, d.missed, nc)
               && d.owner == if d.cr > 0 then Some(Cuts(events[..p]) + 1) else None)
    && (if before == [] then d.tr == 0 && d.nc == d.missed - d.cr
        else d.nc == nc && d.tr == d.missed - d.nc - d.cr)
  }

  lemma SplitFromHistory(events: seq<Event>, s: Sample)
    requires s.cached.Some?
    ensures SplitsAs(events, s, SplitOf(Run(events), s))
  {
    hide Run, Samples, Awaits, Pending, Earliest, StartOf, StartFor, StartsFirst;
    var led := Run(events);
    LinesAreSamples(events);
    NothingAwaits(events, s);
    if Pending(led.folds, s) != [] {
      var p := EarliestCut(events, s);
    }
  }

  lemma NewLineSplits(led: Ledger, s: Sample)
    ensures var l := NewLine(led, s);
      && l.sample == s
      && (if s.cached.Some? then Split(l.missed, l.nc, l.cr, l.tr, l.foldSeq) == SplitOf(led, s)
          else l.missed == 0 && l.nc == 0 && l.cr == 0 && l.tr == 0 && l.foldSeq == None)
  {
    hide SplitOf, Flips, CauseOf;
  }

  lemma LastLine(events: seq<Event>, s: Sample, e: Evidence)
    ensures var lines := Run(events + [Settled(s, e)]).lines;
      && lines != [] && lines[..|lines| - 1] == Run(events).lines
      && lines[|lines| - 1] == Mark(NewLine(Run(events), s), e, GapBefore(Run(events).lines + [NewLine(Run(events), s)]))
  {
    hide NewLine, FoldsAfter, AggAfter, KnownAfter, OpenAfter, Mark, SeamAgg;
    assert (events + [Settled(s, e)])[..|events|] == events;
  }

  lemma MarkKeepsSplit(l: Line, e: Evidence, gap: int)
    ensures var m := Mark(l, e, gap);
      m.sample == l.sample && m.missed == l.missed && m.nc == l.nc && m.cr == l.cr && m.tr == l.tr && m.foldSeq == l.foldSeq
  {
    hide ArmOf, Booked;
  }

  /**
   * In every run the line of a measured report is split by its history: what the input grew by is new content;
   * of the rest, what lies behind the first start of the folds that wait is re-paid and charged to that fold;
   * what is left is residual, or new content on the very first line. An unmeasured report splits into nothing.
   */
  lemma LineSplits(events: seq<Event>, s: Sample, e: Evidence)
    ensures var lines := Run(events + [Settled(s, e)]).lines;
      && lines != []
      && var l := lines[|lines| - 1];
      && l.sample == s
      && (s.cached.Some? ==> SplitsAs(events, s, Split(l.missed, l.nc, l.cr, l.tr, l.foldSeq)))
      && (s.cached.None? ==> l.missed == 0 && l.nc == 0 && l.cr == 0 && l.tr == 0 && l.foldSeq == None)
  {
    hide Run, Mark, NewLine, SplitsAs, SplitOf;
    LastLine(events, s, e);
    var led := Run(events);
    MarkKeepsSplit(NewLine(led, s), e, GapBefore(led.lines + [NewLine(led, s)]));
    NewLineSplits(led, s);
    if s.cached.Some? {
      SplitFromHistory(events, s);
    }
  }

  // ---- what a fold was charged ----

  function ChargedTo(lines: seq<Line>, num: nat): nat {
    if lines == [] then 0
    else ChargedTo(lines[..|lines| - 1], num) + if lines[|lines| - 1].foldSeq == Some(num) then lines[|lines| - 1].cr else 0
  }

  ghost predicate ChargesMatch(led: Ledger) {
    && (forall i :: 0 <= i < |led.folds| ==> led.folds[i].num == i + 1 && led.folds[i].repaid == ChargedTo(led.lines, i + 1))
    && (forall l :: l in led.lines && l.foldSeq.Some? ==> 1 <= l.foldSeq.value <= |led.folds|)
  }

  lemma {:induction false} ChargedToNone(lines: seq<Line>, num: nat)
    requires forall l :: l in lines ==> l.foldSeq != Some(num)
    ensures ChargedTo(lines, num) == 0
  {
    if lines != [] {
      ChargedToNone(lines[..|lines| - 1], num);
    }
  }

  lemma ChargedOneMore(lines: seq<Line>, l: Line, num: nat)
    ensures ChargedTo(lines + [l], num) == ChargedTo(lines, num) + if l.foldSeq == Some(num) then l.cr else 0
  {
    assert (lines + [l])[..|lines|] == lines;
  }

  lemma OwnerIsNumbered(led: Ledger, s: Sample)
    requires ChargesMatch(led) && SplitOf(led, s).owner.Some?
    ensures 1 <= SplitOf(led, s).owner.value <= |led.folds|
  {
    hide SplitOf, ChargedTo;
  }

  lemma SettledCharges(led: Ledger, s: Sample, e: Evidence)
    requires ChargesMatch(led)
    ensures ChargesMatch(Apply(led, Settled(s, e)))
  {
    hide SplitOf, ChargedTo, NewLine, AggAfter, KnownAfter, OpenAfter, Mark, SeamAgg, Claim;
    var l := NewLine(led, s);
    var m := Mark(l, e, GapBefore(led.lines + [l]));
    var next := Apply(led, Settled(s, e));
    NewLineSplits(led, s);
    MarkKeepsSplit(l, e, GapBefore(led.lines + [l]));
    assert next.lines == led.lines + [m] && next.folds == FoldsAfter(led, s);
    if SplitOf(led, s).owner.Some? {
      OwnerIsNumbered(led, s);
    }
    forall i | 0 <= i < |next.folds|
      ensures next.folds[i].num == i + 1 && next.folds[i].repaid == ChargedTo(next.lines, i + 1)
    {
      ChargedOneMore(led.lines, m, i + 1);
      ClaimKeeps(led.folds[i], s);
    }
  }

  lemma ClaimKeeps(f: Fold, s: Sample)
    ensures Claim(f, s).num == f.num && Claim(f, s).repaid == f.repaid
  {
  }

  lemma CutCharges(led: Ledger, at: int, start: Option<nat>, viewAfter: Option<nat>)
    requires ChargesMatch(led)
    ensures ChargesMatch(Cut(led, at, start, viewAfter))
  {
    hide ChargedTo;
    ChargedToNone(led.lines, |led.folds| + 1);
  }

  /** Over every run each fold's re-paid tokens are those of exactly the lines charged to it. */
  lemma {:induction false} RunChargesFolds(events: seq<Event>)
    ensures ChargesMatch(Run(events))
  {
    hide Cut, Record, Detect, ChargesMatch;
    if events == [] {
      NoCharges();
    } else {
      var before := events[..|events| - 1];
      RunChargesFolds(before);
      match events[|events| - 1]
      case FoldCut(at, start, viewAfter) => CutCharges(Run(before), at, start, viewAfter);
      case Settled(s, e) => SettledCharges(Run(before), s, e);
    }
  }

  lemma NoCharges()
    ensures ChargesMatch(Empty)
  {
  }
}
