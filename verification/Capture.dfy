/** Pending evidence of overlapping requests: each captured request keeps its own, only settled pairs are shared. */
module Capture {
  import opened Texts

  type Request = nat

  type Session = nat

  /** A body that was sent: its send order, the request and round that noted it, and what rode along. */
  datatype Slot = Slot(order: nat, owner: Option<Request>, round: Option<nat>, body: Text, msgs: Option<nat>,
                       key: Option<Text>)

  /** Evidence between a send and its settle. */
  datatype Pending = Pending(sent: Option<Slot>, inbound: Option<seq<Text>>)

  datatype Captured = Captured(session: Session, round: nat, pending: Pending)

  /** session.transient: the fallback slot of lanes without a capture, and the settled baselines. */
  datatype Transient = Transient(pending: Pending, settled: Option<Slot>, settledIn: Option<seq<Text>>)

  /** What a pair of bodies is used for. */
  datatype Purpose = Stability | Seam | FoldPrefix

  datatype Use = Use(purpose: Purpose, session: Session, prev: Slot, cur: Slot)

  datatype State = State(captures: map<Request, Captured>, sessions: map<Session, Transient>, order: nat,
                         uses: seq<Use>)

  const NOTHING := Pending(None, None)
  const FRESH := Transient(NOTHING, None, None)
  const Init := State(map[], map[], 0, [])

  function SessionOf(st: State, s: Session): Transient {
    if s in st.sessions then st.sessions[s] else FRESH
  }

  /** The running code is inside a capture of this very session. */
  predicate Inside(st: State, r: Option<Request>, s: Session) {
    r.Some? && r.value in st.captures && st.captures[r.value].session == s
  }

  /** pendingCapture(session).sentBody and .inBody. */
  function PendingOf(st: State, r: Option<Request>, s: Session): Pending {
    if Inside(st, r, s) then st.captures[r.value].pending else SessionOf(st, s).pending
  }

  function SetPending(st: State, r: Option<Request>, s: Session, p: Pending): State {
    if Inside(st, r, s) then st.(captures := st.captures[r.value := st.captures[r.value].(pending := p)])
    else st.(sessions := st.sessions[s := SessionOf(st, s).(pending := p)])
  }

  // ---- the operations ----

  /** withCacheCapture entered. */
  function Begin(st: State, r: Request, s: Session): State {
    st.(captures := st.captures[r := Captured(s, 0, NOTHING)])
  }

  /** withCacheCapture left: its evidence is deleted, but code detached from it still sees the empty capture. */
  function End(st: State, r: Request): State {
    if r in st.captures then st.(captures := st.captures[r := st.captures[r].(pending := NOTHING)]) else st
  }

  /** A re-note of the same bytes keeps the count and the credential it does not bring itself. */
  function Kept<T>(given: Option<T>, prior: Option<Slot>, body: Text, earlier: Option<T>): Option<T> {
    if given.Some? then given else if prior.Some? && prior.value.body == body then earlier else None
  }

  function SlotFor(p: Pending, order: nat, owner: Option<Request>, round: Option<nat>,
                   body: Text, msgs: Option<nat>, key: Option<Text>): Slot {
    Slot(order, owner, round, body,
         Kept(msgs, p.sent, body, if p.sent.Some? then p.sent.value.msgs else None),
         Kept(key, p.sent, body, if p.sent.Some? then p.sent.value.key else None))
  }

  /** noteForwardedBody: a second round drops the inbound evidence of the first. */
  function Note(st: State, r: Option<Request>, s: Session, body: Text, msgs: Option<nat>, key: Option<Text>): State {
    var next := st.(order := st.order + 1);
    if Inside(st, r, s) then
      var c := st.captures[r.value];
      var slot := SlotFor(c.pending, st.order + 1, r, Some(c.round + 1), body, msgs, key);
      next.(captures := next.captures[r.value :=
        Captured(s, c.round + 1, Pending(Some(slot), if c.round + 1 > 1 then None else c.pending.inbound))])
    else
      var t := SessionOf(st, s);
      SetPending(next, r, s, Pending(Some(SlotFor(t.pending, st.order + 1, None, None, body, msgs, key)),
                                     t.pending.inbound))
  }

  /** noteInboundMessages. */
  function NoteInbound(st: State, r: Option<Request>, s: Session, list: seq<Text>): State {
    SetPending(st, r, s, PendingOf(st, r, s).(inbound := Some(list)))
  }

  predicate Backwards(cur: Option<Slot>, settled: Option<Slot>) {
    cur.Some? && settled.Some? && cur.value.order <= settled.value.order
  }

  function Pair(purpose: Purpose, s: Session, settled: Option<Slot>, cur: Option<Slot>): seq<Use> {
    if settled.Some? && cur.Some? then [Use(purpose, s, settled.value, cur.value)] else []
  }

  /**
   * What a settle uses the pair for: a pending fold with a big miss measures its prefix on the pair as it
   * stands, the stability proof and the seam booking take only a pair in send order.
   */
  function UsesOf(s: Session, settled: Option<Slot>, sent: Option<Slot>, folds: bool, unexplained: bool): seq<Use> {
    var back := Backwards(sent, settled);
    (if folds then Pair(FoldPrefix, s, settled, sent) else [])
    + (if back then [] else Pair(Stability, s, settled, sent))
    + (if unexplained && !back then Pair(Seam, s, settled, sent) else [])
  }

  /** The evidence part of settleUsageReport: the pair is used, then the baseline moves, or drops. */
  function Settle(st: State, r: Option<Request>, s: Session, folds: bool, unexplained: bool): State {
    var p, t := PendingOf(st, r, s), SessionOf(st, s);
    var back := Backwards(p.sent, t.settled);
    var moved := SetPending(st, r, s, NOTHING);
    moved.(uses := st.uses + UsesOf(s, t.settled, p.sent, folds, unexplained),
           sessions := moved.sessions[s := SessionOf(moved, s).(
             settled := if back then None else p.sent,
             settledIn := if p.sent.Some? && !back then p.inbound else None)])
  }

  // ---- runs ----

  datatype Event =
    | Begins(r: Request, s: Session)
    | Ends(r: Request)
    | Notes(who: Option<Request>, s: Session, body: Text, msgs: Option<nat>, key: Option<Text>)
    | NotesInbound(who: Option<Request>, s: Session, list: seq<Text>)
    | Settles(who: Option<Request>, s: Session, folds: bool, unexplained: bool)

  /** The request an event runs in. */
  function Runner(e: Event): Option<Request> {
    match e
    case Begins(r, _) => Some(r)
    case Ends(r) => Some(r)
    case Notes(who, _, _, _, _) => who
    case NotesInbound(who, _, _) => who
    case Settles(who, _, _, _) => who
  }

  function Apply(st: State, e: Event): State {
    match e
    case Begins(r, s) => Begin(st, r, s)
    case Ends(r) => End(st, r)
    case Notes(who, s, body, msgs, key) => Note(st, who, s, body, msgs, key)
    case NotesInbound(who, s, list) => NoteInbound(st, who, s, list)
    case Settles(who, s, folds, unexplained) => Settle(st, who, s, folds, unexplained)
  }

  function Run(events: seq<Event>): State {
    if events == [] then Init else Apply(Run(events[..|events| - 1]), events[|events| - 1])
  }

  /** The events of one request, everything else left out. */
  function Own(events: seq<Event>, r: Request): seq<Event> {
    if events == [] then []
    else
      var last := events[|events| - 1];
      Own(events[..|events| - 1], r) + (if Runner(last) == Some(r) then [last] else [])
  }

  // ---- isolation ----

  /** A slot apart from its place in the global send order. */
  function Content(p: Option<Slot>): Option<Slot> {
    if p.Some? then Some(p.value.(order := 0)) else None
  }

  /** The request's capture, send order aside. */
  function View(st: State, r: Request): Option<Captured> {
    if r in st.captures then
      var c := st.captures[r];
      Some(c.(pending := c.pending.(sent := Content(c.pending.sent))))
    else None
  }

  /** An event of another request does not touch this one's evidence. */
  lemma OthersLeaveView(st: State, e: Event, r: Request)
    requires Runner(e) != Some(r)
    ensures View(Apply(st, e), r) == View(st, r)
  {
  }

  /** An event of this request acts on its own evidence alone. */
  lemma OwnActsOnView(a: State, b: State, e: Event, r: Request)
    requires Runner(e) == Some(r) && View(a, r) == View(b, r)
    ensures View(Apply(a, e), r) == View(Apply(b, e), r)
  {
  }

  /**
   * Whatever else runs in between, the pending evidence of a captured request, and so what its settle reads,
   * is what its own events alone would leave.
   */
  lemma {:induction false} EvidenceIsOwn(events: seq<Event>, r: Request)
    ensures View(Run(events), r) == View(Run(Own(events, r)), r)
  {
    if events != [] {
      hide Apply, View, Runner;
      var before, e := events[..|events| - 1], events[|events| - 1];
      EvidenceIsOwn(before, r);
      if Runner(e) == Some(r) {
        var own := Own(before, r) + [e];
        assert own[..|own| - 1] == Own(before, r);
        OwnActsOnView(Run(before), Run(Own(before, r)), e, r);
      } else {
        OthersLeaveView(Run(before), e, r);
        assert Own(before, r) + [] == Own(before, r);
      }
    }
  }

  // ---- order ----

  predicate Stamped(slot: Option<Slot>, order: nat) {
    slot.Some? ==> 1 <= slot.value.order <= order
  }

  predicate OrderOk(st: State) {
    && (forall r :: r in st.captures ==>
        && Stamped(st.captures[r].pending.sent, st.order)
        && (st.captures[r].pending.sent.Some? ==> st.captures[r].pending.sent.value.owner == Some(r)))
    && (forall s :: s in st.sessions ==>
        Stamped(st.sessions[s].pending.sent, st.order) && Stamped(st.sessions[s].settled, st.order))
    && (forall i :: 0 <= i < |st.uses| && st.uses[i].purpose != FoldPrefix ==>
        st.uses[i].prev.order < st.uses[i].cur.order)
  }

  lemma NoteKeepsOrder(st: State, e: Event)
    requires OrderOk(st) && e.Notes?
    ensures OrderOk(Apply(st, e))
  {
    hide Kept;
  }

  lemma SettleKeepsOrder(st: State, e: Event)
    requires OrderOk(st) && e.Settles?
    ensures OrderOk(Apply(st, e))
  {
    hide UsesOf;
    var sent, settled := PendingOf(st, e.who, e.s).sent, SessionOf(st, e.s).settled;
    UsesInOrder(e.s, settled, sent, e.folds, e.unexplained);
  }

  lemma UsesInOrder(s: Session, settled: Option<Slot>, sent: Option<Slot>, folds: bool, unexplained: bool)
    ensures forall u :: u in UsesOf(s, settled, sent, folds, unexplained) && u.purpose != FoldPrefix ==>
      u.prev.order < u.cur.order
  {
  }

  lemma ApplyKeepsOrder(st: State, e: Event)
    requires OrderOk(st)
    ensures OrderOk(Apply(st, e))
  {
    if e.Notes? {
      NoteKeepsOrder(st, e);
    } else if e.Settles? {
      SettleKeepsOrder(st, e);
    }
  }

  lemma {:induction false} RunKeepsOrder(events: seq<Event>)
    ensures OrderOk(Run(events))
  {
    if events != [] {
      hide Apply, OrderOk;
      RunKeepsOrder(events[..|events| - 1]);
      ApplyKeepsOrder(Run(events[..|events| - 1]), events[|events| - 1]);
    } else {
      assert OrderOk(Init);
    }
  }

  /** A settle inside a capture reads a body its own request noted, the one its own events alone would leave. */
  lemma SettleReadsOwn(events: seq<Event>, r: Request, s: Session)
    requires Inside(Run(events), Some(r), s)
    ensures var st, alone := Run(events), Run(Own(events, r));
      && Inside(alone, Some(r), s)
      && Content(PendingOf(st, Some(r), s).sent) == Content(PendingOf(alone, Some(r), s).sent)
      && PendingOf(st, Some(r), s).inbound == PendingOf(alone, Some(r), s).inbound
      && (PendingOf(st, Some(r), s).sent.Some? ==> PendingOf(st, Some(r), s).sent.value.owner == Some(r))
  {
    hide Run, Own;
    EvidenceIsOwn(events, r);
    RunKeepsOrder(events);
  }

  /** Every stability proof and every seam booking of a run compares an earlier send with a later one. */
  lemma ComparisonsRunForward(events: seq<Event>, i: nat)
    requires i < |Run(events).uses| && Run(events).uses[i].purpose != FoldPrefix
    ensures Run(events).uses[i].prev.order < Run(events).uses[i].cur.order
  {
    hide Run;
    RunKeepsOrder(events);
  }

  // ---- the baseline of a session ----

  function BaselineAt(events: seq<Event>, k: nat, s: Session): Option<Slot>
    requires k <= |events|
  {
    SessionOf(Run(events[..k]), s).settled
  }

  predicate SettlesIn(e: Event, s: Session) {
    e.Settles? && e.s == s
  }

  /** What the event reads as the body that was sent. */
  function SentAt(events: seq<Event>, k: nat): Option<Slot>
    requires k < |events| && events[k].Settles?
  {
    PendingOf(Run(events[..k]), events[k].who, events[k].s).sent
  }

  predicate SettledBetween(events: seq<Event>, i: nat, j: nat, s: Session)
    requires i <= j <= |events|
  {
    exists k :: i <= k < j && SettlesIn(events[k], s)
  }

  lemma OneMoreEvent(events: seq<Event>, i: nat, j: nat, s: Session)
    requires i <= j < |events|
    ensures SettledBetween(events, i, j + 1, s) <==> SettledBetween(events, i, j, s) || SettlesIn(events[j], s)
  {
  }

  lemma StepAt(events: seq<Event>, k: nat)
    requires k < |events|
    ensures Run(events[..k + 1]) == Apply(Run(events[..k]), events[k])
  {
    hide Apply;
    var front := events[..k + 1];
    assert front[..|front| - 1] == events[..k];
  }

  lemma OthersKeepBaseline(st: State, e: Event, s: Session)
    requires !SettlesIn(e, s)
    ensures SessionOf(Apply(st, e), s).settled == SessionOf(st, s).settled
  {
  }

  /** A settle makes the body it read the baseline, which is then later than the one before, or drops the baseline. */
  lemma SettleMovesBaseline(st: State, e: Event, s: Session)
    requires SettlesIn(e, s)
    ensures var was, sent, now := SessionOf(st, s).settled, PendingOf(st, e.who, s).sent,
                                  SessionOf(Apply(st, e), s).settled;
      now.Some? ==> now == sent && (was.Some? ==> was.value.order < now.value.order)
  {
  }

  /** The baseline is always a body that some settle of the session read. */
  lemma {:induction false} BaselineWasRead(events: seq<Event>, k: nat, s: Session)
    requires k <= |events| && BaselineAt(events, k, s).Some?
    ensures exists i :: 0 <= i < k && SettlesIn(events[i], s) && SentAt(events, i) == BaselineAt(events, k, s)
  {
    hide Run, Apply, PendingOf;
    if k == 0 {
      assert events[..0] == [];
      EmptyRun();
    } else {
      StepAt(events, k - 1);
      var st, e := Run(events[..k - 1]), events[k - 1];
      if SettlesIn(e, s) {
        SettleMovesBaseline(st, e, s);
        assert SentAt(events, k - 1) == BaselineAt(events, k, s);
      } else {
        OthersKeepBaseline(st, e, s);
        BaselineWasRead(events, k - 1, s);
      }
    }
  }

  lemma EmptyRun()
    ensures Run([]) == Init
  {
  }

  /** As long as a baseline stands, every settle of the session moves it forward in send order, and nothing
      else moves it. */
  lemma {:induction false} BaselineAdvances(events: seq<Event>, i: nat, j: nat, s: Session)
    requires i <= j <= |events| && forall k :: i <= k <= j ==> BaselineAt(events, k, s).Some?
    ensures var was, now := BaselineAt(events, i, s).value, BaselineAt(events, j, s).value;
      if SettledBetween(events, i, j, s) then was.order < now.order else was == now
    decreases j
  {
    hide Run, Apply, PendingOf, SettledBetween, SettlesIn;
    if i == j {
      NoEvent(events, i, s);
    } else {
      BaselineAdvances(events, i, j - 1, s);
      OneMoreEvent(events, i, j - 1, s);
      BaselineStep(events, j - 1, s);
    }
  }

  lemma NoEvent(events: seq<Event>, i: nat, s: Session)
    requires i <= |events|
    ensures !SettledBetween(events, i, i, s)
  {
  }

  lemma BaselineStep(events: seq<Event>, k: nat, s: Session)
    requires k < |events| && BaselineAt(events, k, s).Some? && BaselineAt(events, k + 1, s).Some?
    ensures var was, now := BaselineAt(events, k, s).value, BaselineAt(events, k + 1, s).value;
      if SettlesIn(events[k], s) then was.order < now.order else was == now
  {
    hide Run, Apply, PendingOf;
    StepAt(events, k);
    if SettlesIn(events[k], s) {
      SettleMovesBaseline(Run(events[..k]), events[k], s);
    } else {
      OthersKeepBaseline(Run(events[..k]), events[k], s);
    }
  }

  // ---- the prefix of a pending fold ----

  predicate RunsForward(u: Use) {
    u.prev.order < u.cur.order
  }

  predicate AllForward(us: seq<Use>) {
    forall i :: 0 <= i < |us| ==> RunsForward(us[i])
  }

  /** A settle that measures a fold prefix on a pair out of send order. */
  predicate FoldsBackwards(st: State, e: Event) {
    e.Settles? && e.folds && Backwards(PendingOf(st, e.who, e.s).sent, SessionOf(st, e.s).settled)
  }

  lemma StepForward(st: State, e: Event)
    ensures AllForward(Apply(st, e).uses) <==> AllForward(st.uses) && !FoldsBackwards(st, e)
  {
    if e.Settles? {
      var settled, sent := SessionOf(st, e.s).settled, PendingOf(st, e.who, e.s).sent;
      var more := UsesOf(e.s, settled, sent, e.folds, e.unexplained);
      ForwardConcat(st.uses, more);
      UsesForward(e.s, settled, sent, e.folds, e.unexplained);
    }
  }

  lemma ForwardConcat(a: seq<Use>, b: seq<Use>)
    ensures AllForward(a + b) <==> AllForward(a) && AllForward(b)
  {
    hide RunsForward;
    assert forall i :: 0 <= i < |a| ==> a[i] == (a + b)[i];
    assert forall i :: 0 <= i < |b| ==> b[i] == (a + b)[|a| + i];
  }

  lemma UsesForward(s: Session, settled: Option<Slot>, sent: Option<Slot>, folds: bool, unexplained: bool)
    ensures AllForward(UsesOf(s, settled, sent, folds, unexplained)) <==> !(folds && Backwards(sent, settled))
  {
    if folds && Backwards(sent, settled) {
      var us := UsesOf(s, settled, sent, folds, unexplained);
      assert us[0] == Use(FoldPrefix, s, settled.value, sent.value) && !RunsForward(us[0]);
    }
  }

  /**
   * All bodies a run pairs, those of fold prefixes included, stand in send order exactly when no settle measures
   * a fold prefix while it meets the guard that the other two uses heed.
   */
  lemma {:induction false} AllRunForward(events: seq<Event>)
    ensures AllForward(Run(events).uses) <==>
            forall k :: 0 <= k < |events| ==> !FoldsBackwards(Run(events[..k]), events[k])
  {
    hide Apply, RunsForward, FoldsBackwards, AllForward;
    if events == [] {
      EmptyRun();
      NothingPaired();
    } else {
      var n := |events| - 1;
      var before := events[..n];
      AllRunForward(before);
      assert events[..n + 1] == events;
      StepAt(events, n);
      StepForward(Run(before), events[n]);
      assert forall k :: 0 <= k < n ==> before[..k] == events[..k] && before[k] == events[k];
    }
  }

  lemma NothingPaired()
    ensures AllForward(Init.uses)
  {
  }

  /** The guard is not checked: two overlapping requests that settle in the opposite order, the second with a fold. */
  lemma FoldPrefixMayRunBackwards(a: Text, b: Text)
    ensures exists events :: !AllForward(Run(events).uses)
  {
    hide Run, Apply, AllForward;
    var e1 := [] + [Begins(1, 0)];
    var e2 := e1 + [Begins(2, 0)];
    var e3 := e2 + [Notes(Some(1), 0, a, None, None)];
    var e4 := e3 + [Notes(Some(2), 0, b, None, None)];
    var e5 := e4 + [Settles(Some(2), 0, false, false)];
    var e6 := e5 + [Settles(Some(1), 0, true, false)];
    RunOne([], Begins(1, 0));
    RunOne(e1, Begins(2, 0));
    RunOne(e2, Notes(Some(1), 0, a, None, None));
    RunOne(e3, Notes(Some(2), 0, b, None, None));
    RunOne(e4, Settles(Some(2), 0, false, false));
    OverlapRun(a, b, Run([]));
    assert e6[..5] == e5 && e6[5] == Settles(Some(1), 0, true, false);
    assert FoldsBackwards(Run(e6[..5]), e6[5]);
    AllRunForward(e6);
    assert !AllForward(Run(e6).uses);
  }

  lemma RunOne(events: seq<Event>, e: Event)
    ensures Run(events + [e]) == Apply(Run(events), e)
  {
    hide Apply;
    assert (events + [e])[..|events|] == events;
  }

  lemma OverlapRun(a: Text, b: Text, start: State)
    requires start == Run([])
    ensures var st := Apply(Apply(start, Begins(1, 0)), Begins(2, 0));
      var noted := Apply(Apply(st, Notes(Some(1), 0, a, None, None)), Notes(Some(2), 0, b, None, None));
      FoldsBackwards(Apply(noted, Settles(Some(2), 0, false, false)), Settles(Some(1), 0, true, false))
  {
    assert start == Init;
  }

  // ---- lanes without a capture ----

  /**
   * After any run, two lanes without a capture share a slot: once both have noted a body, the settle of the first
   * takes the second's body for its baseline, and the settle of the second finds none and drops the baseline.
   */
  lemma SharedSlotMixes(events: seq<Event>, r: Option<Request>, q: Option<Request>, s: Session, a: Text, b: Text,
                        folds: bool, unexplained: bool)
    requires !Inside(Run(events), r, s) && !Inside(Run(events), q, s)
    ensures var noted := Run(events + [Notes(r, s, a, None, None)] + [Notes(q, s, b, None, None)]);
      var one, two := Settles(r, s, folds, unexplained), Settles(q, s, folds, unexplained);
      && PendingOf(noted, r, s).sent.Some? && PendingOf(noted, r, s).sent.value.body == b
      && SessionOf(Apply(noted, one), s).settled == PendingOf(noted, r, s).sent
      && SessionOf(Apply(Apply(noted, one), two), s).settled.None?
  {
    hide Run, SettlesIn, OrderOk;
    var e1 := events + [Notes(r, s, a, None, None)];
    RunOne(events, Notes(r, s, a, None, None));
    RunOne(e1, Notes(q, s, b, None, None));
    RunKeepsOrder(events);
    BothNoted(Run(events), r, q, s, a, b, folds, unexplained);
  }

  lemma BothNoted(st: State, r: Option<Request>, q: Option<Request>, s: Session, a: Text, b: Text,
                  folds: bool, unexplained: bool)
    requires OrderOk(st) && !Inside(st, r, s) && !Inside(st, q, s)
    ensures var noted := Note(Note(st, r, s, a, None, None), q, s, b, None, None);
      var one := Settle(noted, r, s, folds, unexplained);
      && PendingOf(noted, r, s).sent.Some? && PendingOf(noted, r, s).sent.value.body == b
      && SessionOf(one, s).settled == PendingOf(noted, r, s).sent
      && SessionOf(Settle(one, q, s, folds, unexplained), s).settled.None?
  {
  }

  // ---- the store the program keeps ----

  /** Captures per running request, baselines per session, and one send counter for all. */
  class CaptureStore {
    var captures: map<Request, Captured>
    var sessions: map<Session, Transient>
    var order: nat
    var uses: seq<Use>

    function Value(): State
      reads this
    {
      State(captures, sessions, order, uses)
    }

    constructor ()
      ensures Value() == Init
    {
      captures, sessions, order, uses := map[], map[], 0, [];
    }

    method Enter(r: Request, s: Session)
      modifies this
      ensures Value() == Begin(old(Value()), r, s)
    {
      captures := captures[r := Captured(s, 0, NOTHING)];
    }

    method Leave(r: Request)
      modifies this
      ensures Value() == End(old(Value()), r)
    {
      if r in captures {
        captures := captures[r := captures[r].(pending := NOTHING)];
      }
    }

    method PutPending(r: Option<Request>, s: Session, p: Pending)
      modifies this
      ensures Value() == SetPending(old(Value()), r, s, p)
    {
      if r.Some? && r.value in captures && captures[r.value].session == s {
        captures := captures[r.value := captures[r.value].(pending := p)];
      } else {
        var t := if s in sessions then sessions[s] else FRESH;
        sessions := sessions[s := t.(pending := p)];
      }
    }

    method NoteForwardedBody(r: Option<Request>, s: Session, body: Text, msgs: Option<nat>, key: Option<Text>)
      modifies this
      ensures Value() == Note(old(Value()), r, s, body, msgs, key)
    {
      var p := PendingOf(Value(), r, s);
      var inside := Inside(Value(), r, s);
      order := order + 1;
      var owner, round, inbound := None, None, p.inbound;
      if inside {
        var c := captures[r.value];
        owner, round := r, Some(c.round + 1);
        if c.round + 1 > 1 {
          inbound := None;
        }
        captures := captures[r.value := c.(round := c.round + 1)];
      }
      PutPending(r, s, Pending(Some(SlotFor(p, order, owner, round, body, msgs, key)), inbound));
    }

    method NoteInboundMessages(r: Option<Request>, s: Session, list: seq<Text>)
      modifies this
      ensures Value() == NoteInbound(old(Value()), r, s, list)
    {
      var p := PendingOf(Value(), r, s);
      PutPending(r, s, p.(inbound := Some(list)));
    }

    method LogUses(s: Session, settled: Option<Slot>, sent: Option<Slot>, folds: bool, unexplained: bool)
      modifies this`uses
      ensures uses == old(uses) + UsesOf(s, settled, sent, folds, unexplained)
    {
      if folds {
        uses := uses + Pair(FoldPrefix, s, settled, sent);
      }
      if !Backwards(sent, settled) {
        uses := uses + Pair(Stability, s, settled, sent);
        if unexplained {
          uses := uses + Pair(Seam, s, settled, sent);
        }
      }
    }

    method SettleEvidence(r: Option<Request>, s: Session, folds: bool, unexplained: bool)
      modifies this
      ensures Value() == Settle(old(Value()), r, s, folds, unexplained)
    {
      hide UsesOf;
      var p, settled := PendingOf(Value(), r, s), SessionOf(Value(), s).settled;
      LogUses(s, settled, p.sent, folds, unexplained);
      PutPending(r, s, NOTHING);
      var t := SessionOf(Value(), s);
      var back := Backwards(p.sent, settled);
      sessions := sessions[s := t.(settled := if back then None else p.sent,
                                   settledIn := if p.sent.Some? && !back then p.inbound else None)];
    }
  }
}
