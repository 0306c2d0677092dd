/** What each verdict means over the candidates, and when one extraction leaves none behind. */
module Verdicts {
  import opened Texts
  import opened Seqs
  import opened Json
  import opened Checkpoint
  import opened Names
  import opened Carriers
  import opened Stamping

  lemma FilterEmpty(cs: seq<ChainCheckpoint>, p: ChainCheckpoint -> bool)
    ensures Filter(cs, p) == [] <==> forall c :: c in cs ==> !p(c)
  {
    if Filter(cs, p) != [] {
      assert Filter(cs, p)[0] in Filter(cs, p);
    }
  }

  /** The latest of the candidates that pass the two tests. */
  ghost predicate IsLatest(r: Option<ChainCheckpoint>, e: Extraction, digest: Text, same: bool,
                           time: ChainCheckpoint -> bool) {
    match r
    case None => forall cp :: cp in e.candidates && cp.v == SUPPORTED_VERSION && (cp.digest == digest) == same ==> !time(cp)
    case Some(best) =>
      && best in e.candidates && best.v == SUPPORTED_VERSION && (best.digest == digest) == same && time(best)
      && forall cp :: cp in e.candidates && cp.v == SUPPORTED_VERSION && (cp.digest == digest) == same && time(cp) ==>
           cp.issuedAt <= best.issuedAt
  }

  lemma PickIsLatest(e: Extraction, digest: Text, same: bool, time: ChainCheckpoint -> bool)
    ensures IsLatest(PickLatest(Filter(Filter(Filter(e.candidates, KnownVersion()), DigestIs(digest, same)), time)),
                     e, digest, same, time)
  {
    hide PickLatest, Filter;
    var known := Filter(e.candidates, KnownVersion());
    var side := Filter(known, DigestIs(digest, same));
    FilterEmpty(side, time);
  }

  function Always(): ChainCheckpoint -> bool {
    (cp: ChainCheckpoint) => true
  }

  lemma {:induction false} FilterAll(cs: seq<ChainCheckpoint>)
    ensures Filter(cs, Always()) == cs
  {
    if cs != [] {
      FilterAll(cs[1..]);
      assert cs == [cs[0]] + cs[1..];
    }
  }

  /**
   * The verdict table. A fresh match is valid; else any match is stale; else a fresh unmatched checkpoint is
   * a recent mismatch; else a stale one is stale; what is left, future or foreign versions only, is invalid.
   * In every row the selected checkpoint is the latest of its class, so a newer forged time never outranks
   * a digest match.
   */
  lemma VerdictTable(parsed: Json, wire: Wire, c: Clock, sha: Text -> Text, e: Extraction, r: Context)
    requires e == Extract(parsed, wire) && r == Evaluate(parsed, wire, c, sha)
    ensures e.candidates == [] ==> r.verdict == (if e.malformed > 0 then Invalid else NoCheckpoint) && r.selected == None
    ensures e.candidates != [] ==>
      var digest := DigestOf(e.stripped, sha);
      match r.verdict
      case NoCheckpoint => false
      case Valid => r.selected.Some? && IsLatest(r.selected, e, digest, true, FreshAt(c))
      case StaleCheckpoint =>
        && r.selected.Some? && IsLatest(None, e, digest, true, FreshAt(c))
        && (if r.selectedMatched == Some(true) then IsLatest(r.selected, e, digest, true, Always())
            else IsLatest(None, e, digest, true, Always()) && IsLatest(None, e, digest, false, FreshAt(c))
                 && IsLatest(r.selected, e, digest, false, StaleAt(c)))
      case RecentMismatch =>
        && IsLatest(None, e, digest, true, Always())
        && r.selected.Some? && IsLatest(r.selected, e, digest, false, FreshAt(c))
      case Invalid =>
        && IsLatest(None, e, digest, true, Always()) && IsLatest(None, e, digest, false, FreshAt(c))
        && IsLatest(None, e, digest, false, StaleAt(c))
  {
    hide Extract, DigestOf, PickLatest, Filter, IsLatest;
    if e.candidates != [] {
      var digest := DigestOf(e.stripped, sha);
      PickIsLatest(e, digest, true, FreshAt(c));
      PickIsLatest(e, digest, true, Always());
      FilterAll(Filter(Filter(e.candidates, KnownVersion()), DigestIs(digest, true)));
      PickIsLatest(e, digest, false, FreshAt(c));
      PickIsLatest(e, digest, false, StaleAt(c));
    }
  }

  /** A candidate of this version, on either side of the digest, issued inside the windows. */
  ghost predicate HoldsFresh(e: Extraction, digest: Text, same: bool, c: Clock) {
    exists cp :: cp in e.candidates && cp.v == 1 && (cp.digest == digest) == same
      && c.now - c.recentWindow <= cp.issuedAt <= c.now + c.maxFutureSkew
  }

  /** One that is older than the window, and not from the future. */
  ghost predicate HoldsOld(e: Extraction, digest: Text, same: bool, c: Clock) {
    exists cp :: cp in e.candidates && cp.v == 1 && (cp.digest == digest) == same
      && cp.issuedAt < c.now - c.recentWindow && cp.issuedAt <= c.now + c.maxFutureSkew
  }

  ghost predicate Holds(e: Extraction, digest: Text, same: bool) {
    exists cp :: cp in e.candidates && cp.v == 1 && (cp.digest == digest) == same
  }

  lemma LatestFresh(r: Option<ChainCheckpoint>, e: Extraction, digest: Text, same: bool, c: Clock)
    requires IsLatest(r, e, digest, same, FreshAt(c))
    ensures r.Some? <==> HoldsFresh(e, digest, same, c)
  {
  }

  lemma LatestOld(r: Option<ChainCheckpoint>, e: Extraction, digest: Text, same: bool, c: Clock)
    requires IsLatest(r, e, digest, same, StaleAt(c))
    ensures r.Some? <==> HoldsOld(e, digest, same, c)
  {
  }

  lemma LatestOfAll(r: Option<ChainCheckpoint>, e: Extraction, digest: Text, same: bool)
    requires IsLatest(r, e, digest, same, Always())
    ensures r.Some? <==> Holds(e, digest, same)
  {
  }

  /** Which verdict a body gets, by what its candidates hold at the reading time. */
  lemma VerdictIs(parsed: Json, wire: Wire, c: Clock, sha: Text -> Text, e: Extraction)
    requires e == Extract(parsed, wire) && e.candidates != []
    ensures var v := Evaluate(parsed, wire, c, sha).verdict;
      var digest := DigestOf(e.stripped, sha);
      && (v == Valid <==> HoldsFresh(e, digest, true, c))
      && (v == RecentMismatch <==> !Holds(e, digest, true) && HoldsFresh(e, digest, false, c))
      && (v == Invalid <==>
            !Holds(e, digest, true) && !HoldsFresh(e, digest, false, c) && !HoldsOld(e, digest, false, c))
      && v != NoCheckpoint
  {
    hide Extract, DigestOf, PickLatest, Filter, IsLatest, HoldsFresh, HoldsOld, Holds;
    var digest := DigestOf(e.stripped, sha);
    var known := Filter(e.candidates, KnownVersion());
    var matched := Filter(known, DigestIs(digest, true));
    var unmatched := Filter(known, DigestIs(digest, false));
    PickIsLatest(e, digest, true, FreshAt(c));
    LatestFresh(PickLatest(Filter(matched, FreshAt(c))), e, digest, true, c);
    PickIsLatest(e, digest, true, Always());
    FilterAll(matched);
    LatestOfAll(PickLatest(matched), e, digest, true);
    PickIsLatest(e, digest, false, FreshAt(c));
    LatestFresh(PickLatest(Filter(unmatched, FreshAt(c))), e, digest, false, c);
    PickIsLatest(e, digest, false, StaleAt(c));
    LatestOld(PickLatest(Filter(unmatched, StaleAt(c))), e, digest, false, c);
    FreshIsHeld(e, digest, c);
  }

  lemma FreshIsHeld(e: Extraction, digest: Text, c: Clock)
    ensures HoldsFresh(e, digest, true, c) ==> Holds(e, digest, true)
  {
  }

  // ---- does one extraction leave a candidate behind? ----

  predicate IsTag(p: Json) {
    match PlainPart(p, TEXT) case Some(t) => Parse(t).Some? case None => false
  }

  /** A user message whose content array has at least two parts, the last two both tags. */
  predicate TwoTagsAtEnd(entry: Json) {
    && IsUser(entry) && Get(entry, CONTENT).Some? && Get(entry, CONTENT).value.Arr?
    && var ps := Get(entry, CONTENT).value.elems;
    |ps| >= 2 && IsTag(ps[|ps| - 1]) && IsTag(ps[|ps| - 2])
  }

  /** Taking the carrier out of such an entry uncovers another one; only anthropic reads single parts. */
  predicate Stacked(entry: Json, wire: Wire) {
    wire == Anthropic && TwoTagsAtEnd(entry)
  }

  predicate AnyStacked(run: seq<Json>, wire: Wire) {
    exists i :: 0 <= i < |run| && Stacked(run[i], wire)
  }

  lemma StrippedStaysInRun(entry: Json, wire: Wire)
    requires !PlaceOf(entry, wire).Stop?
    ensures forall i :: 0 <= i < |StripEntry(entry, wire)| ==> !PlaceOf(StripEntry(entry, wire)[i], wire).Stop?
  {
    hide Parse;
    if CarrierOf(entry, wire).Some? && PlaceOf(entry, wire).part.Some? {
      SlotPart(entry, wire);
      KeysDiffer();
      var kept := RemoveAt(Get(entry, CONTENT).value.elems, PlaceOf(entry, wire).part.value);
      GetPut(entry, CONTENT, Arr(kept), ROLE);
    }
  }

  lemma {:induction false} RunCandidates(run: seq<Json>, wire: Wire)
    ensures CandidatesOf(StripRun(run, wire), wire) == [] <==> !AnyStacked(run, wire)
  {
    if run != [] {
      hide StripEntry, CarrierOf, AnyStacked, Stacked;
      RunCandidates(run[1..], wire);
      FlatMapConcat(StripEntry(run[0], wire), StripRun(run[1..], wire), Candidate(wire));
      EntryCandidates(run[0], wire);
      AnyStackedStep(run, wire);
    }
  }

  lemma AnyStackedStep(run: seq<Json>, wire: Wire)
    requires run != []
    ensures AnyStacked(run, wire) <==> Stacked(run[0], wire) || AnyStacked(run[1..], wire)
  {
    hide Stacked;
    assert forall i :: 1 <= i < |run| ==> run[i] == run[1..][i - 1];
    assert forall i :: 0 <= i < |run[1..]| ==> run[1..][i] == run[i + 1];
  }

  lemma OneCandidate(entry: Json, wire: Wire)
    ensures CandidatesOf([entry], wire) == [] <==> CarrierOf(entry, wire).None?
  {
    hide CarrierOf;
    assert [entry][1..] == [];
    assert FlatMap([entry][1..], Candidate(wire)) == [];
  }

  /** The tag of a user message with several parts is its last part. */
  lemma LastPartCarries(entry: Json)
    requires IsUser(entry) && Get(entry, CONTENT).Some? && Get(entry, CONTENT).value.Arr?
    requires Get(entry, CONTENT).value.elems != []
    ensures var ps := Get(entry, CONTENT).value.elems;
      && (CarrierOf(entry, Anthropic).Some? <==> IsTag(ps[|ps| - 1]))
      && (|ps| > 1 && CarrierOf(entry, Anthropic).Some? ==> PlaceOf(entry, Anthropic).part == Some(|ps| - 1))
      && (|ps| == 1 && CarrierOf(entry, Anthropic).Some? ==> PlaceOf(entry, Anthropic).part == None)
  {
    hide Parse, PlainPart;
  }

  lemma StackedUncovers(entry: Json)
    requires CarrierOf(entry, Anthropic).Some?
    ensures var s := StripEntry(entry, Anthropic);
      if TwoTagsAtEnd(entry) then |s| == 1 && CarrierOf(s[0], Anthropic).Some?
      else s == [] || (|s| == 1 && CarrierOf(s[0], Anthropic).None?)
  {
    hide Parse, PlainPart;
    var content := Get(entry, CONTENT);
    if content.Some? && content.value.Arr? && |content.value.elems| > 1 {
      hide CarrierOf, PlaceOf, IsTag;
      var ps := content.value.elems;
      LastPartCarries(entry);
      var kept := RemoveAt(ps, |ps| - 1);
      assert kept == ps[..|ps| - 1];
      var left := Put(entry, CONTENT, Arr(kept));
      GetPut(entry, CONTENT, Arr(kept), ROLE);
      KeysDiffer();
      assert IsUser(left) && Get(left, CONTENT) == Some(Arr(kept));
      LastPartCarries(left);
      assert kept[|kept| - 1] == ps[|ps| - 2];
      assert StripEntry(entry, Anthropic) == [left];
    }
  }

  lemma EntryCandidates(entry: Json, wire: Wire)
    ensures CandidatesOf(StripEntry(entry, wire), wire) == [] <==> !Stacked(entry, wire)
  {
    var s := StripEntry(entry, wire);
    if CarrierOf(entry, wire).None? {
      OneCandidate(entry, wire);
      NoCarrierNoStack(entry, wire);
    } else if wire == Anthropic {
      StackedUncovers(entry);
      if s != [] {
        OneCandidate(s[0], wire);
        assert s == [s[0]];
      }
    } else {
      WholeIsStripped(entry, wire);
    }
  }

  lemma NoCarrierNoStack(entry: Json, wire: Wire)
    requires CarrierOf(entry, wire).None?
    ensures !Stacked(entry, wire)
  {
    if Stacked(entry, wire) {
      LastPartCarries(entry);
    }
  }

  /** OpenAI and responses carriers are whole messages. */
  lemma WholeIsStripped(entry: Json, wire: Wire)
    requires wire != Anthropic && CarrierOf(entry, wire).Some?
    ensures StripEntry(entry, wire) == []
  {
    hide Parse;
  }

  lemma {:induction false} RunStartAll(head: seq<Json>, run: seq<Json>, wire: Wire)
    requires head == [] || PlaceOf(head[|head| - 1], wire).Stop?
    requires forall i :: 0 <= i < |run| ==> !PlaceOf(run[i], wire).Stop?
    ensures RunStart(head + run, wire) == |head|
  {
    hide PlaceOf;
    if run == [] {
      assert head + run == head;
    } else {
      assert (head + run)[..|head + run| - 1] == head + run[..|run| - 1];
      RunStartAll(head, run[..|run| - 1], wire);
    }
  }

  lemma {:induction false} RunStartStops(es: seq<Json>, wire: Wire)
    ensures var k := RunStart(es, wire);
      && (k > 0 ==> PlaceOf(es[k - 1], wire).Stop?)
      && (forall i :: k <= i < |es| ==> !PlaceOf(es[i], wire).Stop?)
  {
    hide PlaceOf;
    if es != [] && !PlaceOf(es[|es| - 1], wire).Stop? {
      RunStartStops(es[..|es| - 1], wire);
    }
  }

  lemma {:induction false} StripRunStays(run: seq<Json>, wire: Wire)
    requires forall i :: 0 <= i < |run| ==> !PlaceOf(run[i], wire).Stop?
    ensures forall i :: 0 <= i < |StripRun(run, wire)| ==> !PlaceOf(StripRun(run, wire)[i], wire).Stop?
  {
    if run != [] {
      hide PlaceOf, StripEntry;
      StrippedStaysInRun(run[0], wire);
      StripRunStays(run[1..], wire);
      var head, tail := StripEntry(run[0], wire), StripRun(run[1..], wire);
      assert Stripper(wire)(run[0]) == head;
      assert StripRun(run, wire) == head + tail;
      forall i | 0 <= i < |head + tail| ensures !PlaceOf((head + tail)[i], wire).Stop? {
        assert i >= |head| ==> (head + tail)[i] == tail[i - |head|];
      }
    }
  }

  /** The stripped run is still the trailing run of the stripped list. */
  lemma RunAgain(entries: seq<Json>, wire: Wire)
    requires wire != Responses
    ensures var k, es := RunStart(entries, wire), StripList(entries, wire);
      RunStart(es, wire) == k && k <= |es| && es[k..] == StripRun(entries[k..], wire)
  {
    hide PlaceOf, StripRun, RunStart;
    var k := RunStart(entries, wire);
    var run := StripRun(entries[k..], wire);
    assert entries[..|entries|] == entries;
    assert StripList(entries, wire) == entries[..k] + run;
    RunStartStops(entries, wire);
    StripRunStays(entries[k..], wire);
    RunStartAll(entries[..k], run, wire);
  }

  lemma MessagesCandidates(parsed: Json, es: seq<Json>, wire: Wire)
    requires wire != Responses && parsed.Obj?
    ensures Extract(Put(parsed, MESSAGES, Arr(es)), wire).candidates == CandidatesOf(es[RunStart(es, wire)..], wire)
  {
    hide PlaceOf, CandidatesOf, RunStart, Extract, Get, Put;
    ExtractPut(parsed, wire, es);
    assert es[..|es|] == es;
  }

  /** On the messages wires, a candidate is left in the stripped list exactly when some entry of the run was stacked. */
  lemma StrippedCandidates(parsed: Json, entries: seq<Json>, wire: Wire)
    requires wire != Responses && parsed.Obj?
    ensures Extract(Put(parsed, MESSAGES, Arr(StripList(entries, wire))), wire).candidates == [] <==>
            !AnyStacked(entries[RunStart(entries, wire)..], wire)
  {
    hide AnyStacked, CandidatesOf, StripRun, StripList, RunStart, Extract;
    RunAgain(entries, wire);
    MessagesCandidates(parsed, StripList(entries, wire), wire);
    RunCandidates(entries[RunStart(entries, wire)..], wire);
  }

  predicate AllCarry(run: seq<Json>) {
    forall i :: 0 <= i < |run| ==> CarrierOf(run[i], Responses).Some?
  }

  predicate AnyCarries(run: seq<Json>, wire: Wire) {
    exists i :: 0 <= i < |run| && CarrierOf(run[i], wire).Some?
  }

  /** Every entry of the run that ends the list carries a checkpoint, and so does one behind a trigger in
      front of it. */
  predicate HiddenByTrigger(entries: seq<Json>) {
    var k := RunStart(entries, Responses);
    && Visible(entries, Responses) == |entries| && AllCarry(entries[k..])
    && k > 0 && IsTrigger(entries[k - 1])
    && AnyCarries(entries[RunStart(entries[..k - 1], Responses)..k - 1], Responses)
  }

  lemma {:induction false} CandidatesMean(run: seq<Json>, wire: Wire)
    ensures CandidatesOf(run, wire) != [] <==> AnyCarries(run, wire)
  {
    if run != [] {
      hide CarrierOf;
      CandidatesMean(run[1..], wire);
      assert forall i :: 1 <= i < |run| ==> run[i] == run[1..][i - 1];
      assert forall i :: 0 <= i < |run[1..]| ==> run[1..][i] == run[i + 1];
    }
  }

  lemma AllCarryStep(run: seq<Json>)
    requires run != []
    ensures AllCarry(run) <==> CarrierOf(run[0], Responses).Some? && AllCarry(run[1..])
  {
    hide CarrierOf;
    assert forall i :: 1 <= i < |run| ==> run[i] == run[1..][i - 1];
    assert forall i :: 0 <= i < |run[1..]| ==> run[1..][i] == run[i + 1];
  }

  lemma {:induction false} StripsAll(run: seq<Json>)
    ensures StripRun(run, Responses) == [] <==> AllCarry(run)
  {
    if run != [] {
      hide CarrierOf, StripEntry, AllCarry;
      StripsAll(run[1..]);
      OneStripped(run[0]);
      AllCarryStep(run);
      assert StripRun(run, Responses) == StripEntry(run[0], Responses) + StripRun(run[1..], Responses);
    }
  }

  lemma OneStripped(entry: Json)
    ensures StripEntry(entry, Responses) == [] <==> CarrierOf(entry, Responses).Some?
  {
    if CarrierOf(entry, Responses).Some? {
      WholeIsStripped(entry, Responses);
    }
  }

  lemma TriggerIsNoSlot(e: Json)
    requires IsTrigger(e)
    ensures PlaceOf(e, Responses).Stop?
  {
    KeysDiffer();
  }

  lemma LastIsNoTrigger(e: Json)
    requires !PlaceOf(e, Responses).Stop?
    ensures !IsTrigger(e)
  {
    if IsTrigger(e) {
      TriggerIsNoSlot(e);
    }
  }

  /** What remains of the run in front of the rest. */
  lemma RunRemains(entries: seq<Json>)
    ensures var k, run := RunStart(entries, Responses), StripRun(entries[RunStart(entries, Responses)..], Responses);
      RunStart(entries[..k] + run, Responses) == k && CandidatesOf(run, Responses) == []
    ensures var run := StripRun(entries[RunStart(entries, Responses)..], Responses);
      forall i :: 0 <= i < |run| ==> !IsTrigger(run[i])
  {
    hide PlaceOf, Stacked, CandidatesOf, StripRun, IsTrigger, CarrierOf;
    var k := RunStart(entries, Responses);
    var run := StripRun(entries[k..], Responses);
    RunStartStops(entries, Responses);
    StripRunStays(entries[k..], Responses);
    RunStartAll(entries[..k], run, Responses);
    NeverStacked(entries[k..]);
    RunCandidates(entries[k..], Responses);
    forall i | 0 <= i < |run| ensures !IsTrigger(run[i]) {
      LastIsNoTrigger(run[i]);
    }
  }

  lemma NeverStacked(run: seq<Json>)
    ensures !AnyStacked(run, Responses)
  {
  }

  /** The candidates of a list on the responses wire. */
  function ListCandidates(es: seq<Json>): seq<ChainCheckpoint> {
    var n := Visible(es, Responses);
    CandidatesOf(es[RunStart(es[..n], Responses)..n], Responses)
  }

  lemma AgainBehindTrigger(entries: seq<Json>)
    requires Visible(entries, Responses) < |entries|
    ensures ListCandidates(StripList(entries, Responses)) == [] && !HiddenByTrigger(entries)
  {
    hide RunStart, StripRun, IsTrigger, CandidatesOf;
    var n := |entries| - 1;
    var front := entries[..n];
    var k := RunStart(front, Responses);
    var run := StripRun(front[k..], Responses);
    assert front[k..] == entries[k..n] && front[..k] == entries[..k];
    RunRemains(front);
    var es := StripList(entries, Responses);
    assert es == front[..k] + run + [entries[n]] && es[..|es| - 1] == front[..k] + run;
    assert es[k..|es| - 1] == run;
  }

  lemma AgainAtEnd(entries: seq<Json>)
    requires Visible(entries, Responses) == |entries|
    ensures ListCandidates(StripList(entries, Responses)) == [] <==> !HiddenByTrigger(entries)
  {
    hide RunStart, StripRun, IsTrigger, CandidatesOf, AllCarry, AnyCarries;
    var k := RunStart(entries, Responses);
    var run := StripRun(entries[k..], Responses);
    assert entries[..|entries|] == entries;
    RunRemains(entries);
    StripsAll(entries[k..]);
    var es := StripList(entries, Responses);
    assert es == entries[..k] + run && es[..|es|] == es && es[k..] == run;
    if run == [] {
      assert es == entries[..k];
      if k > 0 {
        assert es[..k - 1] == entries[..k - 1];
        var m := RunStart(entries[..k - 1], Responses);
        assert es[m..k - 1] == entries[m..k - 1];
        CandidatesMean(entries[m..k - 1], Responses);
      }
    } else {
      assert es[|es| - 1] == run[|run| - 1];
    }
  }

  /** On the responses wire, candidates are left exactly when the first extraction bares a trigger with
      carriers behind. */
  lemma StrippedCandidatesResponses(parsed: Json, entries: seq<Json>)
    requires parsed.Obj?
    ensures Extract(Put(parsed, INPUT, Arr(StripList(entries, Responses))), Responses).candidates == [] <==>
            !HiddenByTrigger(entries)
  {
    hide HiddenByTrigger, StripList, RunStart, CandidatesOf, MalformedOf, Extract;
    ExtractPut(parsed, Responses, StripList(entries, Responses));
    if Visible(entries, Responses) < |entries| {
      AgainBehindTrigger(entries);
    } else {
      AgainAtEnd(entries);
    }
  }

  /** The bodies on which one extraction is not enough. */
  predicate LeavesCandidate(b: Json, wire: Wire) {
    b.Obj? &&
    match Get(b, ListKey(wire))
    case Some(Arr(entries)) =>
      if wire == Responses then HiddenByTrigger(entries)
      else AnyStacked(entries[RunStart(entries, wire)..], wire)
    case _ => false
  }

  /** With no candidate at all there is nothing stacked and nothing to bare. */
  lemma NoneLeavesNone(entries: seq<Json>)
    requires ListCandidates(entries) == []
    ensures !HiddenByTrigger(entries)
  {
    hide RunStart, CandidatesOf, AnyCarries;
    if Visible(entries, Responses) == |entries| {
      var k := RunStart(entries, Responses);
      assert entries[..|entries|] == entries && entries[k..|entries|] == entries[k..];
      CandidatesMean(entries[k..], Responses);
      NobodyCarries(entries[k..]);
    }
  }

  lemma NobodyCarries(run: seq<Json>)
    ensures !AnyCarries(run, Responses) && AllCarry(run) ==> run == []
  {
    hide CarrierOf;
    if AllCarry(run) && run != [] {
      assert CarrierOf(run[0], Responses).Some?;
    }
  }

  lemma NoneStacksNone(run: seq<Json>)
    requires CandidatesOf(run, Anthropic) == []
    ensures !AnyStacked(run, Anthropic)
  {
    hide CandidatesOf, CarrierOf, Stacked;
    CandidatesMean(run, Anthropic);
    forall i | 0 <= i < |run| ensures !Stacked(run[i], Anthropic) {
      NoCarrierNoStack(run[i], Anthropic);
    }
  }

  lemma ExtractTwiceList(b: Json, wire: Wire, entries: seq<Json>)
    requires b.Obj? && Get(b, ListKey(wire)) == Some(Arr(entries))
    ensures Extract(Extract(b, wire).stripped, wire).candidates == [] <==> !LeavesCandidate(b, wire)
  {
    hide CandidatesOf, MalformedOf, RunStart, StripList, HiddenByTrigger, AnyStacked, Put;
    if wire == Responses {
      if ListCandidates(entries) == [] {
        NoneLeavesNone(entries);
      } else {
        StrippedCandidatesResponses(b, entries);
      }
    } else {
      assert entries[..|entries|] == entries;
      var run := entries[RunStart(entries, wire)..];
      assert entries[RunStart(entries, wire)..|entries|] == run;
      if CandidatesOf(run, wire) == [] {
        NoneStacked(run, wire);
      } else {
        StrippedCandidates(b, entries, wire);
      }
    }
  }

  lemma NoneStacked(run: seq<Json>, wire: Wire)
    requires CandidatesOf(run, wire) == []
    ensures !AnyStacked(run, wire)
  {
    if wire == Anthropic {
      NoneStacksNone(run);
    }
  }

  /**
   * Extracting from what one extraction left finds a candidate exactly on anthropic bodies whose trailing run has a
   * message ending in two tags, and on responses bodies where the first extraction bares a compaction trigger with
   * carriers behind it; never on openai bodies.
   */
  lemma ExtractTwice(b: Json, wire: Wire)
    ensures Extract(Extract(b, wire).stripped, wire).candidates == [] <==> !LeavesCandidate(b, wire)
  {
    hide ExtractList, HiddenByTrigger, AnyStacked, Parse;
    if b.Obj? {
      match Get(b, ListKey(wire))
      case Some(Arr(entries)) => ExtractTwiceList(b, wire, entries);
      case Some(Str(s)) =>
        if wire == Responses && s != [] {
          GetPut(b, INPUT, Str([]), INPUT);
        }
      case _ =>
    }
  }

  // ---- bodies that leave a candidate ----

  lemma OneField(key: Text, val: Json)
    ensures Get(Obj([Field(key, val)]), key) == Some(val)
  {
    KeyIndexIs([Field(key, val)], key, 0);
  }

  function UserParts(parts: seq<Json>): Json {
    Obj([Field(ROLE, Str(USER)), Field(CONTENT, Arr(parts))])
  }

  /** An anthropic message of two tags. */
  lemma StackedBody(tag: Text)
    requires Parse(tag).Some?
    ensures LeavesCandidate(Obj([Field(MESSAGES, Arr([UserParts([TextPart(tag), TextPart(tag)])]))]), Anthropic)
  {
    hide Parse, RunStart;
    var e := UserParts([TextPart(tag), TextPart(tag)]);
    OneField(MESSAGES, Arr([e]));
    KeysDiffer();
    KeyIndexIs(e.fields, ROLE, 0);
    KeyIndexIs(e.fields, CONTENT, 1);
    TextPartIsPlain(tag);
    assert Stacked(e, Anthropic);
    RunStartStops([e], Anthropic);
    UserIsNoStop(e);
    assert RunStart([e], Anthropic) == 0;
    assert [e][0..][0] == e;
  }

  lemma UserIsNoStop(e: Json)
    requires IsUser(e)
    ensures !PlaceOf(e, Anthropic).Stop?
  {
  }

  function Trigger(): Json {
    Obj([Field(TYPE, Str(COMPACTION_TRIGGER))])
  }

  /** On the responses wire a carrier, a compaction trigger, and a carrier again. */
  lemma BuriedBody(tag: Text)
    requires Parse(tag).Some?
    ensures var c := Carrier(Alone(Responses), tag);
      LeavesCandidate(Obj([Field(INPUT, Arr([c, Trigger(), c]))]), Responses)
  {
    hide Parse, RunStart, PlaceOf, CarrierOf, IsTrigger;
    var c, t := Carrier(Alone(Responses), tag), Trigger();
    var es := [c, t, c];
    OneField(INPUT, Arr(es));
    CarrierIsRecognised(Alone(Responses), Responses, tag);
    LastIsNoTrigger(c);
    TriggerIs();
    TriggerIsNoSlot(t);
    assert es == [c, t] + [c] && [c, t] == [c] + [t];
    RunStartAll([c, t], [c], Responses);
    RunStartAll([], [c], Responses);
    assert [] + [c] == [c] && es[..1] == [c] && es[2..] == [c] && es[0..1] == [c];
    assert AnyCarries([c], Responses) && AllCarry([c]) by {
      assert [c][0] == c;
    }
  }

  lemma TriggerIs()
    ensures IsTrigger(Trigger())
  {
    OneField(TYPE, Str(COMPACTION_TRIGGER));
  }
}
