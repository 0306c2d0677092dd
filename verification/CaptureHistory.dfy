/** What a captured request settles, told by the events of the run alone. */
module CaptureHistory {
  import opened Texts
  import opened Capture

  /** How many bodies have been sent, by anyone. */
  function Sends(events: seq<Event>): nat {
    if events == [] then 0 else Sends(events[..|events| - 1]) + if events[|events| - 1].Notes? then 1 else 0
  }

  /** What the request does in its session at this point. */
  predicate Sending(e: Event, r: Request, s: Session) {
    e.Notes? && e.who == Some(r) && e.s == s
  }

  predicate Settling(e: Event, r: Request, s: Session) {
    e.Settles? && e.who == Some(r) && e.s == s
  }

  predicate Listing(e: Event, r: Request, s: Session) {
    e.NotesInbound? && e.who == Some(r) && e.s == s
  }

  predicate Opening(e: Event, r: Request) {
    (e.Begins? || e.Ends?) && e.r == r
  }

  /** From event i on, the request is inside one capture of the session. */
  predicate CapturedFrom(events: seq<Event>, i: nat, j: nat, r: Request, s: Session) {
    i < j <= |events| && events[i] == Begins(r, s) && forall m :: i < m < j ==> !Opening(events[m], r)
  }

  function SendsBy(events: seq<Event>, r: Request, s: Session): nat {
    if events == [] then 0
    else SendsBy(events[..|events| - 1], r, s) + if Sending(events[|events| - 1], r, s) then 1 else 0
  }

  lemma {:induction false} OrderIsSends(events: seq<Event>)
    ensures Run(events).order == Sends(events)
  {
    if events != [] {
      OrderIsSends(events[..|events| - 1]);
      var st := Run(events[..|events| - 1]);
      OrderStep(st, events[|events| - 1]);
    }
  }

  lemma OrderStep(st: State, e: Event)
    ensures Apply(st, e).order == st.order + if e.Notes? then 1 else 0
  {
    hide SlotFor, UsesOf;
  }

  /** The capture the request runs in after the first j events. */
  predicate CaptureIs(events: seq<Event>, j: nat, r: Request, s: Session, round: nat)
    requires j <= |events|
  {
    var st := Run(events[..j]);
    r in st.captures && st.captures[r].session == s && st.captures[r].round == round
  }

  lemma CaptureStep(st: State, e: Event, r: Request, s: Session)
    requires r in st.captures && st.captures[r].session == s && !Opening(e, r)
    ensures var next := Apply(st, e);
      && r in next.captures && next.captures[r].session == s
      && next.captures[r].round == st.captures[r].round + if Sending(e, r, s) then 1 else 0
  {
    hide SlotFor, UsesOf;
  }

  lemma {:induction false} CaptureHolds(events: seq<Event>, i: nat, j: nat, r: Request, s: Session)
    requires CapturedFrom(events, i, j, r, s)
    ensures CaptureIs(events, j, r, s, SendsBy(events[i + 1..j], r, s))
    decreases j
  {
    hide Run, Apply, Sending;
    StepAt(events, j - 1);
    if j == i + 1 {
      BeginStep(Run(events[..i]), r, s);
      assert events[i + 1..j] == [];
    } else {
      CaptureHolds(events, i, j - 1, r, s);
      CaptureStep(Run(events[..j - 1]), events[j - 1], r, s);
      var tail := events[i + 1..j];
      assert tail[..|tail| - 1] == events[i + 1..j - 1] && tail[|tail| - 1] == events[j - 1];
    }
  }

  lemma BeginStep(st: State, r: Request, s: Session)
    ensures var c := Apply(st, Begins(r, s)).captures;
      r in c && c[r].session == s && c[r].round == 0 && c[r].pending == NOTHING
  {
  }

  /** The evidence a captured request has pending. */
  function PendingAt(events: seq<Event>, j: nat, r: Request, s: Session): Pending
    requires j <= |events|
  {
    PendingOf(Run(events[..j]), Some(r), s)
  }

  /** Anything but the request's own sends, lists, settles and captures leaves its evidence alone. */
  lemma EvidenceStep(st: State, e: Event, r: Request, s: Session)
    requires r in st.captures && st.captures[r].session == s && !Opening(e, r)
    ensures var was, now := PendingOf(st, Some(r), s), PendingOf(Apply(st, e), Some(r), s);
      && (!Sending(e, r, s) && !Settling(e, r, s) ==> now.sent == was.sent)
      && (!Sending(e, r, s) && !Settling(e, r, s) && !Listing(e, r, s) ==> now.inbound == was.inbound)
      && (Listing(e, r, s) ==> now.inbound == Some(e.list))
      && (Settling(e, r, s) ==> now == Pending(None, None))
  {
    hide SlotFor, UsesOf;
  }

  /** A captured send: the next number of all sends, its own name and round, and the body as given. */
  lemma SendStep(st: State, e: Event, r: Request, s: Session)
    requires r in st.captures && st.captures[r].session == s && Sending(e, r, s)
    ensures var was, now := PendingOf(st, Some(r), s), PendingOf(Apply(st, e), Some(r), s);
      && now.sent.Some?
      && var slot := now.sent.value;
      && slot.body == e.body && slot.order == st.order + 1 && slot.owner == Some(r)
      && slot.round == Some(st.captures[r].round + 1)
      && now.inbound == (if st.captures[r].round == 0 then was.inbound else None)
      && var again := was.sent.Some? && was.sent.value.body == e.body;
      && slot.msgs == (if e.msgs.Some? then e.msgs else if again then was.sent.value.msgs else None)
      && slot.key == (if e.key.Some? then e.key else if again then was.sent.value.key else None)
  {
  }

  /** The last body the request sent, and not settled yet, before event j. */
  predicate LastSend(events: seq<Event>, k: nat, j: nat, r: Request, s: Session) {
    && k < j <= |events| && Sending(events[k], r, s)
    && forall m :: k < m < j ==> !Sending(events[m], r, s) && !Settling(events[m], r, s)
  }

  /** What was sent stays pending, whatever other requests do. */
  lemma {:induction false} SendIsKept(events: seq<Event>, i: nat, k: nat, j: nat, r: Request, s: Session)
    requires CapturedFrom(events, i, j, r, s) && i < k && LastSend(events, k, j, r, s)
    ensures PendingAt(events, j, r, s).sent == PendingAt(events, k + 1, r, s).sent
    decreases j
  {
    hide Run, Apply, PendingOf;
    if j > k + 1 {
      SendIsKept(events, i, k, j - 1, r, s);
      CaptureHolds(events, i, j - 1, r, s);
      StepAt(events, j - 1);
      EvidenceStep(Run(events[..j - 1]), events[j - 1], r, s);
    }
  }

  /** A body as the request's k-th event sent it. */
  predicate SentAs(slot: Slot, events: seq<Event>, i: nat, k: nat, r: Request, s: Session)
    requires i < k < |events| && events[k].Notes?
  {
    && slot.body == events[k].body && slot.order == Sends(events[..k + 1]) && slot.owner == Some(r)
    && slot.round == Some(SendsBy(events[i + 1..k], r, s) + 1)
    && (events[k].msgs.Some? ==> slot.msgs == events[k].msgs)
    && (events[k].key.Some? ==> slot.key == events[k].key)
  }

  /** A captured request has pending exactly what it sent last, numbered among the sends of all. */
  lemma PendingIsSent(events: seq<Event>, i: nat, k: nat, j: nat, r: Request, s: Session)
    requires CapturedFrom(events, i, j, r, s) && i < k && LastSend(events, k, j, r, s)
    ensures var sent := PendingAt(events, j, r, s).sent; sent.Some? && SentAs(sent.value, events, i, k, r, s)
  {
    hide Run, Apply, PendingOf, Sends, SendsBy;
    CaptureHolds(events, i, k, r, s);
    SendStep(Run(events[..k]), events[k], r, s);
    StepAt(events, k);
    OrderIsSends(events[..k]);
    SendsGrow(events, k);
    SendIsKept(events, i, k, j, r, s);
  }

  lemma SendsGrow(events: seq<Event>, k: nat)
    requires k < |events| && events[k].Notes?
    ensures Sends(events[..k + 1]) == Sends(events[..k]) + 1
  {
    assert events[..k + 1][..k] == events[..k];
  }

  /** A body sent again without its message count or credential keeps those of the first send; another body has none. */
  lemma ResendKeeps(events: seq<Event>, i: nat, k: nat, j: nat, r: Request, s: Session)
    requires CapturedFrom(events, i, j, r, s) && i < k && LastSend(events, k, j, r, s)
    requires j < |events| && Sending(events[j], r, s) && events[j].msgs.None? && events[j].key.None?
    ensures PendingAt(events, j, r, s).sent.Some? && PendingAt(events, j + 1, r, s).sent.Some?
    ensures var first, again := PendingAt(events, j, r, s).sent.value, PendingAt(events, j + 1, r, s).sent.value;
      if events[j].body == events[k].body then again.msgs == first.msgs && again.key == first.key
      else again.msgs == None && again.key == None
  {
    hide Run, Apply, PendingOf, Sends, SendsBy;
    PendingIsSent(events, i, k, j, r, s);
    CaptureHolds(events, i, j, r, s);
    StepAt(events, j);
    SendStep(Run(events[..j]), events[j], r, s);
  }

  /** The pairs a settle compares: a fold in any order, the proof and a seam only forwards. */
  function Compared(s: Session, was: Option<Slot>, sent: Slot, folds: bool, unexplained: bool): seq<Use> {
    if was.None? then []
    else
      (if folds then [Use(FoldPrefix, s, was.value, sent)] else [])
      + (if was.value.order < sent.order then [Use(Stability, s, was.value, sent)] else [])
      + (if was.value.order < sent.order && unexplained then [Use(Seam, s, was.value, sent)] else [])
  }

  lemma SettleStep(st: State, e: Event, s: Session)
    requires e.Settles? && e.s == s && PendingOf(st, e.who, s).sent.Some?
    ensures var was, p, next := SessionOf(st, s), PendingOf(st, e.who, s), Apply(st, e);
      var sent := p.sent.value;
      var forward := was.settled.None? || was.settled.value.order < sent.order;
      && next.uses == st.uses + Compared(s, was.settled, sent, e.folds, e.unexplained)
      && SessionOf(next, s).settled == (if forward then Some(sent) else None)
      && SessionOf(next, s).settledIn == (if forward then p.inbound else None)
      && PendingOf(next, e.who, s) == Pending(None, None)
  {
  }

  /**
   * A settle of a captured request pairs the body the request sent last with the session's baseline: the
   * comparisons are exactly those, the sent body becomes the baseline unless it was sent before the baseline,
   * which is then dropped, and nothing stays pending.
   */
  lemma SettlesWhatItSent(events: seq<Event>, i: nat, k: nat, j: nat, r: Request, s: Session) returns (sent: Slot)
    requires CapturedFrom(events, i, j, r, s) && i < k && LastSend(events, k, j, r, s)
    requires j < |events| && Settling(events[j], r, s)
    ensures SentAs(sent, events, i, k, r, s)
    ensures var was, now := BaselineAt(events, j, s), BaselineAt(events, j + 1, s);
      && now == (if was.None? || was.value.order < sent.order then Some(sent) else None)
      && Run(events[..j + 1]).uses ==
           Run(events[..j]).uses + Compared(s, was, sent, events[j].folds, events[j].unexplained)
    ensures PendingAt(events, j + 1, r, s) == Pending(None, None)
  {
    hide Run, Apply, PendingOf, Compared, SentAs;
    PendingIsSent(events, i, k, j, r, s);
    sent := PendingAt(events, j, r, s).sent.value;
    StepAt(events, j);
    SettleStep(Run(events[..j]), events[j], s);
  }

  /** A settle of a captured request that sent nothing since drops the baseline and compares nothing. */
  lemma SettleWithoutSend(events: seq<Event>, i: nat, j: nat, r: Request, s: Session)
    requires CapturedFrom(events, i, j, r, s) && j < |events| && Settling(events[j], r, s)
    requires forall m :: i < m < j ==> !Sending(events[m], r, s)
    ensures BaselineAt(events, j + 1, s) == None
    ensures Run(events[..j + 1]).uses == Run(events[..j]).uses
  {
    hide Run, Apply, PendingOf;
    NothingPending(events, i, j, r, s);
    StepAt(events, j);
    EmptySettle(Run(events[..j]), events[j], s);
  }

  lemma EmptySettle(st: State, e: Event, s: Session)
    requires e.Settles? && e.s == s && PendingOf(st, e.who, s).sent.None?
    ensures Apply(st, e).uses == st.uses && SessionOf(Apply(st, e), s).settled == None
  {
  }

  lemma {:induction false} NothingPending(events: seq<Event>, i: nat, j: nat, r: Request, s: Session)
    requires CapturedFrom(events, i, j, r, s) && forall m :: i < m < j ==> !Sending(events[m], r, s)
    ensures PendingAt(events, j, r, s).sent == None
    decreases j
  {
    hide Run, Apply;
    StepAt(events, j - 1);
    if j == i + 1 {
      BeginStep(Run(events[..i]), r, s);
    } else {
      NothingPending(events, i, j - 1, r, s);
      CaptureHolds(events, i, j - 1, r, s);
      EvidenceStep(Run(events[..j - 1]), events[j - 1], r, s);
    }
  }

  /** The end of a capture leaves nothing pending, whatever the request sent or listed. */
  lemma EndForgets(events: seq<Event>, i: nat, j: nat, r: Request, s: Session)
    requires CapturedFrom(events, i, j, r, s) && j < |events| && events[j] == Ends(r)
    ensures PendingAt(events, j + 1, r, s) == Pending(None, None)
  {
    hide Run, Apply, SendsBy;
    CaptureHolds(events, i, j, r, s);
    StepAt(events, j);
    EndStep(Run(events[..j]), r, s);
  }

  lemma EndStep(st: State, r: Request, s: Session)
    requires r in st.captures && st.captures[r].session == s
    ensures PendingOf(Apply(st, Ends(r)), Some(r), s) == Pending(None, None)
  {
  }

  // ---- the client's own list ----

  /** The last list of the request before event j; a send keeps it only in the first round. */
  predicate LastList(events: seq<Event>, i: nat, m: nat, j: nat, r: Request, s: Session) {
    && i < m < j <= |events| && Listing(events[m], r, s)
    && (forall n :: m < n < j ==> !Listing(events[n], r, s) && !Settling(events[n], r, s))
    && (forall n :: m < n < j && Sending(events[n], r, s) ==>
         forall k :: i < k < n ==> !Sending(events[k], r, s))
  }

  lemma {:induction false} NoSends(events: seq<Event>, i: nat, n: nat, r: Request, s: Session)
    requires i < n <= |events| && forall k :: i < k < n ==> !Sending(events[k], r, s)
    ensures SendsBy(events[i + 1..n], r, s) == 0
    decreases n
  {
    var tail := events[i + 1..n];
    if tail != [] {
      assert tail[..|tail| - 1] == events[i + 1..n - 1] && tail[|tail| - 1] == events[n - 1];
      NoSends(events, i, n - 1, r, s);
    }
  }

  lemma {:induction false} ListIsKept(events: seq<Event>, i: nat, m: nat, j: nat, r: Request, s: Session)
    requires CapturedFrom(events, i, j, r, s) && LastList(events, i, m, j, r, s)
    ensures PendingAt(events, j, r, s).inbound == Some(events[m].list)
    decreases j
  {
    hide Run, Apply, PendingOf, SendsBy;
    StepAt(events, j - 1);
    CaptureHolds(events, i, j - 1, r, s);
    var st, e := Run(events[..j - 1]), events[j - 1];
    EvidenceStep(st, e, r, s);
    if j > m + 1 {
      ListIsKept(events, i, m, j - 1, r, s);
      if Sending(e, r, s) {
        NoSends(events, i, j - 1, r, s);
        SendStep(st, e, r, s);
      }
    }
  }

  /** So the settle of the first round carries that list over, unless it drops the baseline. */
  lemma SettlesItsList(events: seq<Event>, i: nat, m: nat, k: nat, j: nat, r: Request, s: Session)
    requires CapturedFrom(events, i, j, r, s) && LastList(events, i, m, j, r, s)
    requires i < k && LastSend(events, k, j, r, s) && j < |events| && Settling(events[j], r, s)
    ensures SessionOf(Run(events[..j + 1]), s).settledIn ==
      if BaselineAt(events, j + 1, s).Some? then Some(events[m].list) else None
  {
    hide Run, Apply, PendingOf, SentAs, LastSend, LastList;
    ListIsKept(events, i, m, j, r, s);
    PendingIsSent(events, i, k, j, r, s);
    StepAt(events, j);
    SettleStep(Run(events[..j]), events[j], s);
  }

  /** A second round forgets the list of the first. */
  lemma RetryForgetsList(events: seq<Event>, i: nat, k: nat, j: nat, r: Request, s: Session)
    requires CapturedFrom(events, i, j, r, s) && i < k && LastSend(events, k, j, r, s)
    requires exists n :: i < n < k && Sending(events[n], r, s)
    requires forall n :: k < n < j ==> !Listing(events[n], r, s)
    requires j < |events| && Settling(events[j], r, s)
    ensures SessionOf(Run(events[..j + 1]), s).settledIn == None
  {
    hide Run, Apply, PendingOf, SentAs;
    ForgottenAt(events, i, k, j, r, s);
    PendingIsSent(events, i, k, j, r, s);
    StepAt(events, j);
    SettleStep(Run(events[..j]), events[j], s);
  }

  lemma {:induction false} ForgottenAt(events: seq<Event>, i: nat, k: nat, j: nat, r: Request, s: Session)
    requires CapturedFrom(events, i, j, r, s) && i < k && LastSend(events, k, j, r, s)
    requires exists n :: i < n < k && Sending(events[n], r, s)
    requires forall n :: k < n < j ==> !Listing(events[n], r, s)
    ensures PendingAt(events, j, r, s).inbound == None
    decreases j
  {
    hide Run, Apply, PendingOf, SendsBy;
    StepAt(events, j - 1);
    CaptureHolds(events, i, j - 1, r, s);
    var st, e := Run(events[..j - 1]), events[j - 1];
    if j == k + 1 {
      var n :| i < n < k && Sending(events[n], r, s);
      SomeSends(events, i, n, k, r, s);
      SendStep(st, e, r, s);
    } else {
      ForgottenAt(events, i, k, j - 1, r, s);
      EvidenceStep(st, e, r, s);
    }
  }

  lemma {:induction false} SomeSends(events: seq<Event>, i: nat, n: nat, k: nat, r: Request, s: Session)
    requires i < n < k <= |events| && Sending(events[n], r, s)
    ensures SendsBy(events[i + 1..k], r, s) > 0
    decreases k
  {
    var tail := events[i + 1..k];
    assert tail[..|tail| - 1] == events[i + 1..k - 1] && tail[|tail| - 1] == events[k - 1];
    if n < k - 1 {
      SomeSends(events, i, n, k - 1, r, s);
    }
  }
}
