/** Every charge in the ledger is justified by the lines before it, and every justified charge is made. */
module LedgerHistory {
  import opened Texts
  import opened Ledger
  import opened LedgerTotals

  // ---- what the lines before a sample say ----

  /** The last value a part had on a measured line. */
  function Latest(before: seq<Line>, p: Part): Option<string> {
    if before == [] then None
    else
      var s := before[|before| - 1].sample;
      if Measured(s) && p in s.parts then Some(s.parts[p]) else Latest(before[..|before| - 1], p)
  }

  /** The sample carries the part, and its last measured value was another one. */
  predicate Moved(before: seq<Line>, s: Sample, p: Part) {
    Measured(s) && p in s.parts && Latest(before, p).Some? && Latest(before, p).value != s.parts[p]
  }

  /** The forwarded system text moved, the client's own is known on both sides and did not. */
  predicate OwnProjection(before: seq<Line>, s: Sample) {
    && Moved(before, s, SystemPart) && !Moved(before, s, CanonPart)
    && CanonPart in s.parts && Latest(before, CanonPart).Some?
  }

  /** A measured sample settled by another boot than the sample right before it. */
  predicate BootMoved(before: seq<Line>, s: Sample) {
    Measured(s) && before != [] && before[|before| - 1].sample.boot != s.boot
  }

  predicate Flipped(before: seq<Line>, s: Sample, c: Cause) {
    match c
    case Restart => BootMoved(before, s)
    case Model => Moved(before, s, ModelPart)
    case Effort => Moved(before, s, EffortPart)
    case Key => Moved(before, s, KeyPart)
    case Prompt => Moved(before, s, SystemPart) && !OwnProjection(before, s)
    case Projection => OwnProjection(before, s)
    case Wire => Moved(before, s, WirePart)
    case Upstream => Moved(before, s, UpstreamPart)
  }

  /** No measured warm sample after line j. */
  predicate ColdSince(before: seq<Line>, j: nat) {
    forall k :: j < k < |before| ==> !Warm(before[k].sample)
  }

  /** Line j flipped the cause and the next sample may still be charged for it. */
  predicate StillOpen(lines: seq<Line>, j: nat, c: Cause)
    requires j < |lines|
  {
    c in lines[j].flips && c != Restart && |lines| - j <= 4 && ColdSince(lines, j)
  }

  /** The cause flipped at most four samples earlier, with no warm sample since, this one included. */
  predicate InWindow(before: seq<Line>, s: Sample, c: Cause) {
    !Warm(s) && exists j :: 0 <= j < |before| && StillOpen(before, j, c)
  }

  ghost function FlipSet(before: seq<Line>, s: Sample): set<Cause> {
    set c: Cause | Flipped(before, s, c)
  }

  ghost function WindowSet(before: seq<Line>, s: Sample): set<Cause> {
    set c: Cause | InWindow(before, s, c)
  }

  function Rank(c: Cause): nat {
    match c
    case Restart => 0 case Model => 1 case Effort => 2 case Key => 3
    case Prompt => 4 case Projection => 5 case Wire => 6 case Upstream => 7
  }

  /** The highest-priority cause of the set, or none when it is empty. */
  ghost predicate Strongest(cause: Option<Cause>, causes: set<Cause>) {
    && (cause.Some? ==> cause.value in causes && forall c :: c in causes ==> Rank(cause.value) <= Rank(c))
    && (cause.None? ==> causes == {})
  }

  /** The charge a sample deserves: its own strongest flip, else the strongest window it falls into. */
  ghost predicate Deserves(before: seq<Line>, s: Sample, cause: Option<Cause>) {
    if !Measured(s) then cause.None?
    else if FlipSet(before, s) != {} then Strongest(cause, FlipSet(before, s))
    else Strongest(cause, WindowSet(before, s))
  }

  // ---- the trackers remember what the lines say ----

  /** A line's flips and charge are those the lines before it call for. */
  ghost predicate LineExplained(before: seq<Line>, l: Line) {
    l.flips == FlipSet(before, l.sample) && Deserves(before, l.sample, l.cause)
  }

  /** The open windows are the last flips no warm sample and no cold bound has closed. */
  ghost predicate WindowsTracked(lines: seq<Line>, open: map<Cause, nat>) {
    && (forall c :: c in open ==>
        c != Restart && 1 <= open[c] <= |lines| && c in lines[open[c] - 1].flips && ColdSince(lines, open[c] - 1))
    && (forall c, j :: 0 <= j < |lines| && StillOpen(lines, j, c) ==> c in open && open[c] - 1 >= j)
  }

  ghost predicate PartsTracked(lines: seq<Line>, known: map<Part, string>) {
    forall p :: Latest(lines, p) == if p in known then Some(known[p]) else None
  }

  ghost predicate Explained(led: Ledger) {
    && (forall i :: 0 <= i < |led.lines| ==> LineExplained(led.lines[..i], led.lines[i]))
    && PartsTracked(led.lines, led.known)
    && WindowsTracked(led.lines, led.open)
    && led.lastBoot == if led.lines == [] then None else Some(led.lines[|led.lines| - 1].sample.boot)
  }

  /** A report is warm from 84.95 percent on, which rounds to 85.0. */
  lemma WarmFrom(s: Sample)
    ensures Warm(s) <==> s.cached.Some? && s.input > 0 && 2000 * s.cached.value >= 1699 * s.input
  {
    if s.cached.Some? && s.input > 0 {
      RoundsDown(2000 * s.cached.value + s.input, 2 * s.input);
    }
  }

  lemma RoundsDown(a: nat, b: nat)
    requires b > 0
    ensures a / b >= 850 <==> a >= 850 * b
  {
    var q := a / b;
    assert a == q * b + a % b;
    if q >= 850 {
      assert q * b >= 850 * b;
    } else {
      assert q * b <= 849 * b;
    }
  }

  lemma FlipsAreFlipSet(led: Ledger, s: Sample)
    requires PartsTracked(led.lines, led.known)
    requires led.lastBoot == if led.lines == [] then None else Some(led.lines[|led.lines| - 1].sample.boot)
    ensures Flips(led, s) == FlipSet(led.lines, s)
  {
    hide Latest;
    forall p ensures Switched(led.known, s, p) <==> Moved(led.lines, s, p) {
    }
    assert ProjectionFlip(led.known, s) <==> OwnProjection(led.lines, s);
    forall c: Cause ensures c in Flips(led, s) <==> Flipped(led.lines, s, c) {
      AllRanked(c);
    }
  }

  lemma AllRanked(c: Cause)
    ensures c in PRIORITY && PRIORITY[Rank(c)] == c
  {
  }

  /** Walking the priority list finds the strongest cause. */
  lemma FirstIsStrongest(causes: set<Cause>)
    ensures Strongest(First(PRIORITY, causes), causes)
  {
    forall c: Cause ensures c in PRIORITY {
      AllRanked(c);
    }
    FirstIsLeast(PRIORITY, 0, causes);
  }

  lemma {:induction false} FirstIsLeast(list: seq<Cause>, k: nat, causes: set<Cause>)
    requires forall i :: 0 <= i < |list| ==> Rank(list[i]) == k + i
    ensures First(list, causes).Some? ==> forall c :: c in causes && c in list ==> Rank(First(list, causes).value) <= Rank(c)
  {
    if list != [] && list[0] !in causes {
      FirstIsLeast(list[1..], k + 1, causes);
    }
  }

  lemma WindowsAreWindowSet(led: Ledger, s: Sample)
    requires WindowsTracked(led.lines, led.open)
    ensures Continuing(led.open, s, |led.lines| + 1) == WindowSet(led.lines, s)
  {
    hide Warm, ColdSince;
    forall c: Cause ensures c in Continuing(led.open, s, |led.lines| + 1) <==> InWindow(led.lines, s, c) {
      if c in Continuing(led.open, s, |led.lines| + 1) {
        var j := led.open[c] - 1;
        assert StillOpen(led.lines, j, c);
      }
    }
  }

  lemma NewLineExplained(led: Ledger, s: Sample)
    requires Explained(led)
    ensures LineExplained(led.lines, NewLine(led, s))
  {
    hide Flips, Continuing, FlipSet, WindowSet, Strongest, First, SplitOf, PartsTracked, WindowsTracked;
    FlipsAreFlipSet(led, s);
    WindowsAreWindowSet(led, s);
    FirstIsStrongest(FlipSet(led.lines, s));
    FirstIsStrongest(WindowSet(led.lines, s));
    EmptyOrNot(FlipSet(led.lines, s));
  }

  lemma EmptyOrNot(causes: set<Cause>)
    ensures First(PRIORITY, causes).None? <==> causes == {}
  {
    FirstIsStrongest(causes);
  }

  lemma PartsStayTracked(led: Ledger, l: Line)
    requires PartsTracked(led.lines, led.known)
    ensures PartsTracked(led.lines + [l], KnownAfter(led, l.sample))
  {
    assert (led.lines + [l])[..|led.lines|] == led.lines;
  }

  /** An open window after the line goes back to a flip nothing closed. */
  lemma WindowIsFlip(led: Ledger, l: Line, c: Cause)
    requires WindowsTracked(led.lines, led.open) && l.flips == Flips(led, l.sample)
    requires c in OpenAfter(led, l.sample)
    ensures var lines, j := led.lines + [l], OpenAfter(led, l.sample)[c] - 1;
      c != Restart && 0 <= j < |lines| && c in lines[j].flips && ColdSince(lines, j)
  {
    hide Flips, Warm, ColdSince;
    var j := OpenAfter(led, l.sample)[c] - 1;
    UnmeasuredIsCold(l.sample);
    if j == |led.lines| {
      ColdAtEnd(led.lines + [l]);
    } else {
      assert c in led.open && led.open[c] == j + 1;
      ColdOneMore(led.lines, l, j);
    }
  }

  /** A flip that may still be charged has its window, or a later one, open. */
  lemma FlipIsWindow(led: Ledger, l: Line, c: Cause, j: nat)
    requires WindowsTracked(led.lines, led.open) && l.flips == Flips(led, l.sample)
    requires j <= |led.lines| && StillOpen(led.lines + [l], j, c)
    ensures c in OpenAfter(led, l.sample) && OpenAfter(led, l.sample)[c] - 1 >= j
  {
    hide Flips, Warm, ColdSince;
    UnmeasuredFlipsNothing(led, l.sample);
    if j < |led.lines| {
      ColdOneMore(led.lines, l, j);
      assert StillOpen(led.lines, j, c);
    }
  }

  lemma WindowsStayTracked(led: Ledger, l: Line)
    requires WindowsTracked(led.lines, led.open) && l.flips == Flips(led, l.sample)
    ensures WindowsTracked(led.lines + [l], OpenAfter(led, l.sample))
  {
    hide OpenAfter, ColdSince, StillOpen, Flips;
    var lines, open := led.lines + [l], OpenAfter(led, l.sample);
    forall c | c in open
      ensures c != Restart && 1 <= open[c] <= |lines| && c in lines[open[c] - 1].flips && ColdSince(lines, open[c] - 1)
    {
      WindowIsFlip(led, l, c);
    }
    forall c, j | 0 <= j < |lines| && StillOpen(lines, j, c) ensures c in open && open[c] - 1 >= j {
      FlipIsWindow(led, l, c, j);
    }
  }

  lemma ColdAtEnd(lines: seq<Line>)
    requires lines != []
    ensures ColdSince(lines, |lines| - 1)
  {
  }

  lemma ColdOneMore(lines: seq<Line>, l: Line, j: nat)
    requires j < |lines|
    ensures ColdSince(lines + [l], j) <==> ColdSince(lines, j) && !Warm(l.sample)
  {
    hide Warm;
    var more := lines + [l];
    assert more[|lines|] == l;
    assert forall k :: 0 <= k < |lines| ==> more[k] == lines[k];
  }

  lemma UnmeasuredFlipsNothing(led: Ledger, s: Sample)
    ensures !Measured(s) ==> Flips(led, s) == {}
  {
  }

  lemma UnmeasuredIsCold(s: Sample)
    ensures !Measured(s) ==> !Warm(s)
  {
  }

  lemma RecordStaysExplained(led: Ledger, s: Sample)
    requires Explained(led)
    ensures Explained(Record(led, s))
  {
    var l, next := NewLine(led, s), Record(led, s);
    NewLineExplained(led, s);
    assert l.sample == s && l.flips == Flips(led, s);
    hide NewLine, FoldsAfter, AggAfter, KnownAfter, OpenAfter, PartsTracked, WindowsTracked, LineExplained;
    PartsStayTracked(led, l);
    WindowsStayTracked(led, l);
    forall i | 0 <= i < |next.lines| ensures LineExplained(next.lines[..i], next.lines[i]) {
      assert next.lines[..i] == led.lines[..i];
      assert i == |led.lines| ==> led.lines[..i] == led.lines;
    }
  }

  /** The two lists differ only in what the seam detector writes. */
  predicate SameFacts(a: seq<Line>, b: seq<Line>) {
    |a| == |b| && forall i :: 0 <= i < |a| ==>
      a[i].sample == b[i].sample && a[i].flips == b[i].flips && a[i].cause == b[i].cause
  }

  lemma {:induction false} SameLatest(a: seq<Line>, b: seq<Line>, p: Part)
    requires SameFacts(a, b)
    ensures Latest(a, p) == Latest(b, p)
  {
    if a != [] {
      SameLatest(a[..|a| - 1], b[..|b| - 1], p);
    }
  }

  lemma SameWindows(a: seq<Line>, b: seq<Line>, open: map<Cause, nat>)
    requires SameFacts(a, b) && WindowsTracked(a, open)
    ensures WindowsTracked(b, open)
  {
    hide Warm;
    forall j | 0 <= j < |a| ensures ColdSince(a, j) <==> ColdSince(b, j) {
    }
    forall c, j | 0 <= j < |a| ensures StillOpen(a, j, c) <==> StillOpen(b, j, c) {
    }
  }

  lemma SameLinesExplained(a: seq<Line>, b: seq<Line>, i: nat)
    requires SameFacts(a, b) && i < |a| && a[..i] == b[..i] && LineExplained(a[..i], a[i])
    ensures LineExplained(b[..i], b[i])
  {
    hide LineExplained;
    SameExplained(a[..i], a[i], b[i]);
  }

  lemma SameParts(a: seq<Line>, b: seq<Line>, known: map<Part, string>)
    requires SameFacts(a, b) && PartsTracked(a, known)
    ensures PartsTracked(b, known)
  {
    hide Latest;
    forall p ensures Latest(a, p) == Latest(b, p) {
      SameLatest(a, b, p);
    }
  }

  lemma DetectKeepsFacts(led: Ledger, e: Evidence)
    requires led.lines != []
    ensures SameFacts(led.lines, Detect(led, e).lines)
    ensures forall i :: 0 <= i < |led.lines| ==> led.lines[..i] == Detect(led, e).lines[..i]
  {
    hide Mark, SeamAgg;
    MarkKeepsFacts(led.lines[|led.lines| - 1], e, GapBefore(led.lines));
  }

  lemma DetectStaysExplained(led: Ledger, e: Evidence)
    requires Explained(led) && led.lines != []
    ensures Explained(Detect(led, e))
  {
    var next := Detect(led, e);
    assert next.open == led.open && next.known == led.known && next.lastBoot == led.lastBoot;
    hide Detect, SameFacts, PartsTracked, WindowsTracked, LineExplained;
    DetectKeepsFacts(led, e);
    SameSize(led.lines, next.lines);
    SameWindows(led.lines, next.lines, led.open);
    SameParts(led.lines, next.lines, led.known);
    forall i | 0 <= i < |next.lines| ensures LineExplained(next.lines[..i], next.lines[i]) {
      SameLinesExplained(led.lines, next.lines, i);
    }
  }

  lemma SameSize(a: seq<Line>, b: seq<Line>)
    requires SameFacts(a, b) && a != []
    ensures |a| == |b| && a[|a| - 1].sample == b[|b| - 1].sample
  {
  }

  lemma MarkKeepsFacts(l: Line, e: Evidence, gap: int)
    ensures var m := Mark(l, e, gap); m.sample == l.sample && m.flips == l.flips && m.cause == l.cause
  {
    hide ArmOf, Booked;
  }

  lemma SameExplained(before: seq<Line>, a: Line, b: Line)
    requires LineExplained(before, a) && a.sample == b.sample && a.flips == b.flips && a.cause == b.cause
    ensures LineExplained(before, b)
  {
  }

  // ---- every run ----

  lemma {:induction false} RunExplained(events: seq<Event>)
    ensures Explained(Run(events))
  {
    hide Record, Detect, Explained;
    if events == [] {
      EmptyExplained();
    } else {
      var before, ev := events[..|events| - 1], events[|events| - 1];
      RunExplained(before);
      match ev
      case FoldCut(at, start, viewAfter) => CutStaysExplained(Run(before), at, start, viewAfter);
      case Settled(s, e) =>
        RecordStaysExplained(Run(before), s);
        RecordAddsLine(Run(before), s);
        DetectStaysExplained(Record(Run(before), s), e);
    }
  }

  lemma EmptyExplained()
    ensures Explained(Empty)
  {
  }

  lemma CutStaysExplained(led: Ledger, at: int, start: Option<nat>, viewAfter: Option<nat>)
    requires Explained(led)
    ensures Explained(Cut(led, at, start, viewAfter))
  {
    hide LineExplained, PartsTracked, WindowsTracked;
  }

  lemma RecordAddsLine(led: Ledger, s: Sample)
    ensures Record(led, s).lines != []
  {
    hide NewLine, FoldsAfter, AggAfter, OpenAfter;
  }

  /**
   * In every run a line carries exactly the flips its history shows, and is charged to exactly the cause that
   * history calls for.
   */
  lemma RunCharges(events: seq<Event>, i: nat)
    requires i < |Run(events).lines|
    ensures var lines := Run(events).lines;
      && lines[i].flips == FlipSet(lines[..i], lines[i].sample)
      && Deserves(lines[..i], lines[i].sample, lines[i].cause)
  {
    hide Run, FlipSet, Deserves;
    RunExplained(events);
    var lines := Run(events).lines;
    assert LineExplained(lines[..i], lines[i]);
  }

  /** The cause flipped at line j, at most four samples before line i, and no sample after j up to i was warm. */
  predicate FlippedEarlier(lines: seq<Line>, i: nat, j: nat, c: Cause)
    requires i < |lines|
  {
    j < i && i - j <= 4 && c in lines[j].flips && forall k :: j < k <= i ==> !Warm(lines[k].sample)
  }

  /**
   * A charge means a flip on this very line, or a flip of that cause at most four samples earlier with no
   * measured warm sample after it, this line included; a restart is charged on its own line only.
   */
  lemma ChargeIsJustified(events: seq<Event>, i: nat)
    requires i < |Run(events).lines| && Run(events).lines[i].cause.Some?
    ensures var lines, c := Run(events).lines, Run(events).lines[i].cause.value;
      || c in lines[i].flips
      || (c != Restart && exists j :: FlippedEarlier(lines, i, j, c))
  {
    hide Run, Warm, FlipSet;
    RunCharges(events, i);
    var lines := Run(events).lines;
    var before, s, c := lines[..i], lines[i].sample, lines[i].cause.value;
    if c !in lines[i].flips {
      assert InWindow(before, s, c);
      var j :| 0 <= j < |before| && StillOpen(before, j, c);
      forall k | j < k <= i ensures !Warm(lines[k].sample) {
        assert k < i ==> before[k] == lines[k];
      }
      assert FlippedEarlier(lines, i, j, c);
    }
  }

  /** The forwarded system text moved, and the client's own moved with it or is not known on both sides. */
  predicate ClientMoved(before: seq<Line>, s: Sample) {
    && Moved(before, s, SystemPart)
    && (Moved(before, s, CanonPart) || CanonPart !in s.parts || Latest(before, CanonPart).None?)
  }

  /**
   * A pure flip of the proxy's own projection opens no prompt window: a line charged to the prompt has a line,
   * itself or one at most four samples earlier with no warm sample after it, on which the text moved and not by
   * projection alone.
   */
  lemma PromptNeedsClient(events: seq<Event>, i: nat)
    requires i < |Run(events).lines| && Run(events).lines[i].cause == Some(Prompt)
    ensures var lines := Run(events).lines;
      exists j :: 0 <= j <= i && (j == i || FlippedEarlier(lines, i, j, Prompt))
                  && ClientMoved(lines[..j], lines[j].sample)
  {
    hide Run, Moved, Warm, Latest;
    ChargeIsJustified(events, i);
    var lines := Run(events).lines;
    var j := if Prompt in lines[i].flips then i else
      var j :| FlippedEarlier(lines, i, j, Prompt); j;
    RunCharges(events, j);
    assert Flipped(lines[..j], lines[j].sample, Prompt);
    assert ClientMoved(lines[..j], lines[j].sample);
  }

  /** The restart flag looks at the sample right before only. */
  lemma RestartFlag(events: seq<Event>, i: nat)
    requires i < |Run(events).lines|
    ensures var lines := Run(events).lines;
      Restart in lines[i].flips <==>
        Measured(lines[i].sample) && i > 0 && lines[i - 1].sample.boot != lines[i].sample.boot
  {
    hide Run, Moved, Deserves;
    RunCharges(events, i);
  }

  /**
   * The first measured sample of a new boot goes unflagged when an unmeasured sample of that boot came before
   * it, against the promise of the flag.
   */
  lemma RestartSwallowed()
    ensures var none := Evidence(None, None, None, 0);
      var run := [Settled(Sample(0, 10, Some(0), 0, map[], "a", None), none),
                  Settled(Sample(1, 10, None, 0, map[], "b", None), none),
                  Settled(Sample(2, 10, Some(0), 0, map[], "b", None), none)];
      var lines := Run(run).lines;
      |lines| == 3 && !Measured(lines[1].sample) && Measured(lines[2].sample) && lines[2].sample.boot != lines[0].sample.boot
      && Restart !in lines[2].flips
  {
    hide Run;
    var none := Evidence(None, None, None, 0);
    var s0, s1 := Sample(0, 10, Some(0), 0, map[], "a", None), Sample(1, 10, None, 0, map[], "b", None);
    var s2 := Sample(2, 10, Some(0), 0, map[], "b", None);
    var run := [Settled(s0, none), Settled(s1, none), Settled(s2, none)];
    SamplesOne([], s0, none);
    SamplesOne([Settled(s0, none)], s1, none);
    SamplesOne([Settled(s0, none), Settled(s1, none)], s2, none);
    assert run == [Settled(s0, none), Settled(s1, none)] + [Settled(s2, none)];
    assert [Settled(s0, none), Settled(s1, none)] == [Settled(s0, none)] + [Settled(s1, none)];
    assert [Settled(s0, none)] == [] + [Settled(s0, none)];
    LinesAreSamples(run);
    assert Samples(run) == [s0, s1, s2];
    RestartFlag(run, 2);
  }

  lemma SamplesOne(events: seq<Event>, s: Sample, e: Evidence)
    ensures Samples(events + [Settled(s, e)]) == Samples(events) + [s]
  {
    assert (events + [Settled(s, e)])[..|events|] == events;
  }
}
