/** What the seam detector blames on whom, in terms of the bodies sent and the lists the client resent. */
module LedgerSeams {
  import opened Texts
  import opened Ledger
  import opened LedgerTotals
  import opened LedgerFolds

  // ---- what is recorded of a body and of a list ----

  /** A forwarded body: its bytes, the texts of its messages and, when it was counted, how many they are. */
  datatype Sent = Sent(order: Option<nat>, bytes: seq<nat>, messages: seq<Text>, counted: Option<nat>)

  /** At most 512 KiB of a body are kept. */
  function Head(b: Sent): seq<nat> {
    if |b.bytes| <= 524288 then b.bytes else b.bytes[..524288]
  }

  /** A clipped body reads as no messages. */
  function Readable(b: Sent): seq<Text> {
    if |b.bytes| <= 524288 then b.messages else []
  }

  function SlotOf(b: Sent): Slot {
    Slot(b.order, |Head(b)|, |b.bytes|, b.counted)
  }

  function Common<T(==)>(a: seq<T>, b: seq<T>): (k: nat)
    ensures k <= |a| && k <= |b|
  {
    if a == [] || b == [] || a[0] != b[0] then 0 else 1 + Common(a[1..], b[1..])
  }

  function Compared(prev: Sent, cur: Sent): Bodies {
    var a, b := Readable(prev), Readable(cur);
    Bodies(SlotOf(prev), SlotOf(cur),
           Shape(Common(Head(prev), Head(cur)), if a != [] && b != [] then Some(Common(a, b)) else None, |a|, |b|))
  }

  lemma {:induction false} CommonTo<T>(a: seq<T>, b: seq<T>, n: nat)
    requires n <= |a|
    ensures Common(a, b) >= n <==> a[..n] <= b
  {
    if n > 0 && b != [] && a[0] == b[0] {
      CommonTo(a[1..], b[1..], n - 1);
      assert a[..n] == [a[0]] + a[1..][..n - 1] && b == [b[0]] + b[1..];
    }
  }

  lemma CommonIsAll<T>(a: seq<T>, b: seq<T>)
    ensures Common(a, b) == |a| <==> a <= b
    ensures Common(a, b) == |b| <==> b <= a
  {
    CommonTo(a, b, |a|);
    assert a[..|a|] == a;
    CommonSwaps(a, b);
    CommonTo(b, a, |b|);
    assert b[..|b|] == b;
  }

  lemma {:induction false} CommonSwaps<T>(a: seq<T>, b: seq<T>)
    ensures Common(a, b) == Common(b, a)
  {
    if a != [] && b != [] && a[0] == b[0] {
      CommonSwaps(a[1..], b[1..]);
    }
  }

  lemma {:induction false} CommonIs<T>(a: seq<T>, b: seq<T>, k: nat)
    requires k <= |a| && k <= |b| && a[..k] == b[..k] && (k == |a| || k == |b| || a[k] != b[k])
    ensures Common(a, b) == k
  {
    if k > 0 {
      assert a[0] == a[..k][0] && b[0] == b[..k][0];
      assert a[1..][..k - 1] == a[..k][1..] && b[1..][..k - 1] == b[..k][1..];
      CommonIs(a[1..], b[1..], k - 1);
    }
  }

  /** seamLcp: both walks, over the recorded heads and over the messages they read as. */
  method SeamLcp(prev: Sent, cur: Sent) returns (shape: Shape)
    ensures shape == Compared(prev, cur).shape
  {
    var a, b := Head(prev), Head(cur);
    var lcp := 0;
    while lcp < |a| && lcp < |b| && a[lcp] == b[lcp]
      invariant lcp <= |a| && lcp <= |b| && a[..lcp] == b[..lcp]
    {
      lcp := lcp + 1;
    }
    CommonIs(a, b, lcp);
    var ma, mb := Readable(prev), Readable(cur);
    var i := 0;
    while i < |ma| && i < |mb| && ma[i] == mb[i]
      invariant i <= |ma| && i <= |mb| && ma[..i] == mb[..i]
    {
      i := i + 1;
    }
    CommonIs(ma, mb, i);
    shape := Shape(lcp, if ma != [] && mb != [] then Some(i) else None, |ma|, |mb|);
  }

  /** A list of more than 8192 messages is only counted. */
  function Noted(list: seq<Text>): InSlot {
    InSlot(|list|, if |list| <= 8192 then list else [])
  }

  // ---- the arms, told by bodies and lists ----

  predicate BothWhole(prev: Sent, cur: Sent) {
    |prev.bytes| <= 524288 && |cur.bytes| <= 524288
  }

  /** All but the last four bytes, where a closing bracket may differ. */
  function Trimmed(head: seq<nat>): seq<nat> {
    if |head| <= 4 then [] else head[..|head| - 4]
  }

  /** The client dropped messages, or the whole current body survives inside the longer previous one. */
  predicate Rewound(prev: Sent, cur: Sent) {
    || (BothWhole(prev, cur) && prev.messages != [] && |cur.messages| < |prev.messages|)
    || (|Head(cur)| < |Head(prev)| && Trimmed(Head(cur)) <= Head(prev))
  }

  /** The wire was stable: all of the current body recurs, or only messages were appended. */
  predicate Stable(prev: Sent, cur: Sent) {
    || Head(cur) <= Head(prev)
    || (BothWhole(prev, cur) && prev.messages != [] && prev.messages < cur.messages)
    || (|Head(prev)| < |Head(cur)| && Trimmed(Head(prev)) <= Head(cur)
        && prev.counted.Some? && cur.counted.Some? && prev.counted.value < cur.counted.value)
  }

  /** The client's list was rewritten in the middle. */
  predicate Rewritten(prev: seq<Text>, cur: seq<Text>) {
    |prev| <= 8192 && |cur| <= 8192 && !(prev <= cur) && !(cur <= prev)
  }

  datatype Witness = Witness(sent: Option<(Sent, Sent)>, client: Option<(seq<Text>, seq<Text>)>)

  /** The evidence is what was recorded of the bodies and lists. */
  predicate Records(e: Evidence, w: Witness) {
    && e.bodies == (match w.sent case Some((prev, cur)) => Some(Compared(prev, cur)) case None => None)
    && e.inbound == (match w.client case Some((prev, cur)) => Some(Inbound(Noted(prev), Noted(cur))) case None => None)
  }

  /** The arm of a booked miss, and whether the report came more than ten minutes after the one before. */
  predicate BlamedOn(arm: Arm, w: Witness, sweeps: nat, idle: bool) {
    if w.sent.Some? && Rewound(w.sent.value.0, w.sent.value.1) then arm == Rewind
    else if w.sent.Some? && Stable(w.sent.value.0, w.sent.value.1) then arm == if idle then Ttl else Side
    else if w.client.Some? && Rewritten(w.client.value.0, w.client.value.1) then arm == Client
    else arm == if sweeps > 0 then OrphanSweep else Suspect
  }

  lemma CommonTrimmed(a: seq<nat>, b: seq<nat>)
    ensures Common(a, b) >= |a| - 4 <==> Trimmed(a) <= b
  {
    CommonTo(a, b, if |a| <= 4 then 0 else |a| - 4);
  }

  lemma BodiesDecide(prev: Sent, cur: Sent, gap: int)
    ensures var provider := if gap > 600000 then Ttl else Side;
      BodyArm(Compared(prev, cur), gap) ==
        if Rewound(prev, cur) then Some(Rewind) else if Stable(prev, cur) then Some(provider) else None
  {
    hide Common, Trimmed, Head;
    CommonTrimmed(Head(cur), Head(prev));
    CommonTrimmed(Head(prev), Head(cur));
    CommonSwaps(Head(prev), Head(cur));
    CommonIsAll(Head(cur), Head(prev));
    CommonIsAll(Readable(prev), Readable(cur));
  }

  lemma {:induction false} DivergesUnlessPrefix(prev: seq<Text>, cur: seq<Text>)
    ensures FirstDivergent(prev, cur).Some? <==> !(prev <= cur) && !(cur <= prev)
    ensures FirstDivergent(prev, cur).Some? ==> FirstDivergent(prev, cur).value < Min(|prev|, |cur|)
  {
    if prev != [] && cur != [] && prev[0] == cur[0] {
      DivergesUnlessPrefix(prev[1..], cur[1..]);
      assert prev == [prev[0]] + prev[1..] && cur == [cur[0]] + cur[1..];
    }
  }

  lemma ClientBreakIsRewrite(prev: seq<Text>, cur: seq<Text>)
    ensures ClientBreak(Inbound(Noted(prev), Noted(cur))) <==> Rewritten(prev, cur)
  {
    DivergesUnlessPrefix(prev, cur);
  }

  lemma ArmIsBlamed(e: Evidence, w: Witness, gap: int)
    requires Records(e, w)
    ensures BlamedOn(ArmOf(e, gap), w, e.sweeps, gap > 600000)
  {
    hide BodyArm, ClientBreak, Rewound, Stable, Rewritten, Compared;
    if w.sent.Some? {
      BodiesDecide(w.sent.value.0, w.sent.value.1, gap);
    }
    if w.client.Some? {
      ClientBreakIsRewrite(w.client.value.0, w.client.value.1);
    }
  }

  /**
   * On fully recorded bodies with a previous list, a miss is blamed on a broken history only when the current
   * list is no shorter and is not the previous one with messages appended.
   */
  lemma BlameNeedsBreak(e: Evidence, w: Witness, gap: int, prev: Sent, cur: Sent)
    requires Records(e, w) && w.sent == Some((prev, cur)) && BothWhole(prev, cur) && prev.messages != []
    ensures ArmOf(e, gap) in {Client, OrphanSweep, Suspect} ==>
      |cur.messages| >= |prev.messages| && !(prev.messages < cur.messages) && !(cur.bytes <= prev.bytes)
  {
    ArmIsBlamed(e, w, gap);
  }

  // ---- over every run ----

  /** A measured miss that is not the first report. */
  predicate Missed(before: seq<Sample>, s: Sample) {
    before != [] && s.cached.Some? && s.input > s.cached.value
  }

  /** No switch, no restart and no fold explains the residual, and it is a big slice of a big bill. */
  predicate Unaccounted(l: Line) {
    && Model !in l.flips && Wire !in l.flips && Upstream !in l.flips && Restart !in l.flips
    && l.cause == None && l.foldSeq == None && l.tr > 8192 && 10 * l.tr > 3 * l.sample.input
  }

  /** The bodies settled in the wrong order, so they say nothing. */
  predicate SettledLate(w: Witness) {
    && w.sent.Some? && w.sent.value.0.order.Some? && w.sent.value.1.order.Some?
    && w.sent.value.1.order.value <= w.sent.value.0.order.value
  }

  predicate Marked(l: Line, arm: Option<Arm>) {
    && l.prov == (if arm == Some(Suspect) then None else arm)
    && l.seam == (arm == Some(Suspect))
  }

  lemma LastSample(events: seq<Event>)
    ensures var lines, before := Run(events).lines, Samples(events);
      (lines == [] <==> before == []) && (lines != [] ==> lines[|lines| - 1].sample == before[|before| - 1])
  {
    hide Run, Samples;
    LinesAreSamples(events);
  }

  lemma NewLineStarts(led: Ledger, s: Sample)
    ensures var l := NewLine(led, s);
      && l.sample == s && l.prov == None && !l.seam && !l.aborted
      && (Examined(l) <==> led.lines != [] && s.cached.Some? && s.input > s.cached.value)
  {
    hide Decompose, Flips, CauseOf, Pending;
  }

  lemma NoneOfFour(flips: set<Cause>)
    ensures flips * {Model, Wire, Upstream, Restart} == {} <==>
      Model !in flips && Wire !in flips && Upstream !in flips && Restart !in flips
  {
    var four := {Model, Wire, Upstream, Restart};
    if flips * four != {} {
      var c :| c in flips * four;
    }
    assert forall c :: c in four && c in flips ==> c in flips * four;
  }

  lemma MarkIs(l: Line, e: Evidence, w: Witness, gap: int)
    requires Records(e, w) && l.prov == None && !l.seam && !l.aborted
    ensures var m := Mark(l, e, gap);
      && m.sample == l.sample && m.flips == l.flips && m.cause == l.cause && m.foldSeq == l.foldSeq && m.tr == l.tr
      && (m.aborted <==> Examined(l) && e.abortAt.Some? && -30000 < l.sample.at - e.abortAt.value < 30000)
      && (if Examined(l) && Unaccounted(l) && !SettledLate(w)
          then exists arm :: Marked(m, Some(arm)) && BlamedOn(arm, w, e.sweeps, gap > 600000)
          else Marked(m, None))
  {
    hide ArmOf, BlamedOn, Examined, Head, Readable, Common;
    ArmIsBlamed(e, w, gap);
    assert Unexplained(l) <==> Unaccounted(l) by {
      assert l.flips * {Model, Wire, Upstream, Restart} == {} <==>
        Model !in l.flips && Wire !in l.flips && Upstream !in l.flips && Restart !in l.flips by {
        NoneOfFour(l.flips);
      }
    }
    if Booked(l, e) {
      assert Marked(Mark(l, e, gap), Some(ArmOf(e, gap)));
    }
  }

  /**
   * In every run the line of a report is booked exactly when its residual is unaccounted for and its bodies did
   * not settle late; the arm follows from the bodies sent, then from the client's own lists, then from the
   * sweeps, and the idle time counts from the report before.
   */
  lemma LineBlamed(events: seq<Event>, s: Sample, e: Evidence, w: Witness)
    requires Records(e, w)
    ensures var lines, before := Run(events + [Settled(s, e)]).lines, Samples(events);
      && lines != []
      && var l := lines[|lines| - 1];
      && l.sample == s
      && (l.aborted <==> Missed(before, s) && e.abortAt.Some? && -30000 < s.at - e.abortAt.value < 30000)
      && (if Missed(before, s) && Unaccounted(l) && !SettledLate(w)
          then exists arm :: Marked(l, Some(arm)) && BlamedOn(arm, w, e.sweeps, s.at - before[|before| - 1].at > 600000)
          else Marked(l, None))
  {
    hide Run, Samples, Mark, NewLine, Records, BlamedOn, Examined, SettledLate;
    var led := Run(events);
    var l := NewLine(led, s);
    LastLine(events, s, e);
    LastSample(events);
    NewLineStarts(led, s);
    MarkIs(l, e, w, GapBefore(led.lines + [l]));
  }
}
