/** What every step of the keepalive machine does to every reachable state, told without the machine's own operations. */
module KeepaliveSteps {
  import opened Texts
  import opened Keepalive

  // ---- dropping a snapshot, and waiting for a time ----

  /** The registrations of all other sessions, in order. */
  function Without(reg: seq<Reg>, s: Session): seq<Reg> {
    if reg == [] then []
    else if reg[0].session == s then Without(reg[1..], s)
    else [reg[0]] + Without(reg[1..], s)
  }

  /** The session has this snapshot. */
  predicate Has(reg: seq<Reg>, s: Session, id: EntryId) {
    Reg(s, id) in reg
  }

  /** The session loses its snapshot, and with it the timers that wait for it. */
  function Dropping(st: State, s: Session): State {
    st.(registry := Without(st.registry, s),
        timers := map t | t in st.timers && !Has(st.registry, s, st.timers[t].entry) :: st.timers[t])
  }

  /** A new timer wakes the snapshot later. */
  function Waiting(st: State, id: EntryId, ms: nat): State
    requires id < |st.entries|
  {
    st.(entries := st.entries[id := st.entries[id].(timer := Some(st.nextTimer))],
        timers := st.timers[st.nextTimer := Timer(id, st.now + ms)], nextTimer := st.nextTimer + 1)
  }

  lemma {:induction false} HasIsFound(reg: seq<Reg>, s: Session)
    requires Distinct(reg)
    ensures forall id: EntryId :: Has(reg, s, id) <==> LookupIn(reg, s) == Some(id)
  {
    var i := Find(reg, s);
    forall id: EntryId | Has(reg, s, id) ensures LookupIn(reg, s) == Some(id) {
      var j :| 0 <= j < |reg| && reg[j] == Reg(s, id);
      assert i <= j;
    }
  }

  lemma {:induction false} WithoutNone(reg: seq<Reg>, s: Session)
    requires forall i :: 0 <= i < |reg| ==> reg[i].session != s
    ensures Without(reg, s) == reg
  {
    if reg != [] {
      WithoutNone(reg[1..], s);
    }
  }

  lemma {:induction false} RemoveIsWithout(reg: seq<Reg>, s: Session)
    requires Distinct(reg)
    ensures Remove(reg, s) == Without(reg, s)
  {
    if reg == [] {
    } else if reg[0].session == s {
      FindIs(reg, s, 0);
      WithoutNone(reg[1..], s);
      assert reg[..0] == [];
    } else {
      RemoveIsWithout(reg[1..], s);
      var i := Find(reg[1..], s);
      FindIs(reg, s, i + 1);
      if i < |reg[1..]| {
        assert reg[..i + 1] == [reg[0]] + reg[1..][..i];
      }
    }
  }

  /** No timer waits for the snapshot but its own. */
  predicate Tidy(st: State, id: EntryId)
    requires id < |st.entries|
  {
    NoTimer(st, id) || OneTimer(st, id)
  }

  lemma DisarmIsDropping(st: State, s: Session)
    requires WellKept(st)
    requires forall id: EntryId :: Has(st.registry, s, id) && id < |st.entries| ==> Tidy(st, id)
    ensures Disarm(st, s) == Dropping(st, s)
  {
    hide Without, Remove, WithinBudget;
    RemoveIsWithout(st.registry, s);
    HasIsFound(st.registry, s);
    match Lookup(st, s)
    case None =>
      NothingToDrop(st, s);
    case Some(id) =>
      LookupFinds(st, s);
      assert Has(st.registry, s, id) && Tidy(st, id) && Kept(st, id);
      assert Disarm(st, s).timers == Dropping(st, s).timers;
  }

  lemma NothingToDrop(st: State, s: Session)
    requires WellKept(st) && Lookup(st, s).None?
    ensures Dropping(st, s) == st
  {
    hide WithinBudget;
    HasIsFound(st.registry, s);
    WithoutNone(st.registry, s);
    assert Dropping(st, s).timers == st.timers;
  }

  lemma RegisteredIsHeld(st: State, id: EntryId)
    requires WellKept(st) && id < |st.entries|
    ensures Registered(st, id) <==> Has(st.registry, st.entries[id].session, id)
  {
    hide WithinBudget;
    HasIsFound(st.registry, st.entries[id].session);
  }

  lemma AllTidy(st: State, x: int, s: Session)
    requires ValidBut(st, x) && (0 <= x < |st.entries| && Registered(st, x) ==> NoTimer(st, x))
    ensures forall id: EntryId :: Has(st.registry, s, id) && id < |st.entries| ==> Tidy(st, id)
  {
    hide WithinBudget, OnPace;
    HasIsFound(st.registry, s);
    forall id: EntryId | Has(st.registry, s, id) && id < |st.entries| ensures Tidy(st, id) {
      LookupFinds(st, s);
      assert Registered(st, id);
      if id != x {
        assert EntryOk(st, id);
      }
    }
  }

  /** In a well-kept state, what disarming a session does. */
  lemma DisarmDrops(st: State, x: int, s: Session)
    requires ValidBut(st, x) && (0 <= x < |st.entries| && Registered(st, x) ==> NoTimer(st, x))
    ensures Disarm(st, s) == Dropping(st, s)
  {
    hide EntryOk, Tidy;
    AllTidy(st, x, s);
    DisarmIsDropping(st, s);
  }

  // ---- the steps ----

  /** A failed ping: the third one in a row drops the snapshot, the others wait another cadence. */
  function Failed(st: State, id: EntryId): State
    requires id < |st.entries|
  {
    var e := st.entries[id];
    var counted := st.(entries := st.entries[id := e.(failStreak := e.failStreak + 1)]);
    if !Has(st.registry, e.session, id) then st
    else if e.failStreak + 1 >= 3 then Dropping(counted, e.session)
    else Waiting(counted, id, e.cadence)
  }

  lemma FailureFails(st: State, id: EntryId)
    requires ValidBut(st, id) && id < |st.entries| && (Registered(st, id) ==> Idle(st, id))
    ensures HandleFailure(st, id) == Failed(st, id)
  {
    hide EntryOk, WellKept, Dropping, Disarm, Has;
    StillKept(st, id);
    RegisteredIsHeld(st, id);
    if Registered(st, id) {
      var e := st.entries[id].(failStreak := st.entries[id].failStreak + 1);
      CountersValid(st, id, e);
      DisarmDrops(SetEntry(st, id, e), id, e.session);
    }
  }

  lemma StillKept(st: State, x: int)
    requires ValidBut(st, x)
    ensures WellKept(st)
  {
  }

  /**
   * A timer that is due is used up. It wakes the snapshot only if its session still has it; then it drops it
   * when its time is over or the session is gone, waits five seconds while a request is on its way, and
   * otherwise sends one ping.
   */
  lemma FireDoes(events: seq<Event>, t: TimerId, alive: bool, busy: bool)
    requires var st := Run(events); t in st.timers && st.timers[t].due <= st.now
    ensures var st, next := Run(events), Run(events + [Fires(t, alive, busy)]);
      var id, woken := st.timers[t].entry, st.(timers := st.timers - {t});
      && id < |st.entries|
      && var e := st.entries[id];
      next ==
        if !Has(st.registry, e.session, id) then woken
        else if st.now > e.armedAt + e.maxDuration || !alive then Dropping(woken, e.session)
        else if e.inFlight || busy then Waiting(woken, id, 5000)
        else woken.(entries := st.entries[id := e.(inFlight := true, sends := e.sends + 1)], sending := st.sending + {id})
  {
    hide Run, EntryOk, WellKept, Dropping, Disarm, Has, ValidBut, Registered;
    var st := Run(events);
    RunOne(events, Fires(t, alive, busy));
    RunValid(events);
    FiredIsIdle(st, t);
    var id, woken := st.timers[t].entry, st.(timers := st.timers - {t});
    StillKept(woken, id);
    RegisteredIsHeld(woken, id);
    if Registered(woken, id) {
      DisarmDrops(woken, id, st.entries[id].session);
    }
  }

  /** A reply ends the flight. A network error is a failure; otherwise, while the snapshot stands, its body is read. */
  lemma AnswerDoes(events: seq<Event>, id: EntryId, reply: Option<Status>)
    requires id in Run(events).sending
    ensures var st, next := Run(events), Run(events + [Replies(id, reply)]);
      && id < |st.entries|
      && var landed := st.(entries := st.entries[id := st.entries[id].(inFlight := false)], sending := st.sending - {id});
      next ==
        if reply.None? then Failed(landed, id)
        else if !Has(st.registry, st.entries[id].session, id) then landed
        else landed.(reading := st.reading[id := reply.value])
  {
    hide Run, EntryOk, Failed, HandleFailure, Has, Registered;
    var st := Run(events);
    RunOne(events, Replies(id, reply));
    RunValid(events);
    var landed := st.(entries := st.entries[id := st.entries[id].(inFlight := false)], sending := st.sending - {id});
    assert id !in st.reading && st.reading - {id} == st.reading;
    ReleaseValid(st, id, landed);
    FailureFails(landed, id);
    StillKept(landed, id);
    RegisteredIsHeld(landed, id);
  }

  /**
   * The verdict of a body: a rate limit or a reply without a cache hit drops whatever snapshot the session has;
   * an error is a failure of this one; a hit clears its failures and waits another cadence if it still stands.
   */
  lemma ReadDoes(events: seq<Event>, id: EntryId, hit: bool)
    requires id in Run(events).reading
    ensures var st, next := Run(events), Run(events + [BodyRead(id, hit)]);
      && id < |st.entries|
      && var e, read := st.entries[id], st.(reading := st.reading - {id});
      var counted := read.(entries := st.entries[id := e.(pingCount := e.pingCount + 1)]);
      var cleared := read.(entries := st.entries[id := e.(pingCount := e.pingCount + 1, failStreak := 0)]);
      next ==
        match st.reading[id]
        case RateLimited => Dropping(read, e.session)
        case Bad => Failed(read, id)
        case Good =>
          if !hit then Dropping(counted, e.session)
          else if Has(st.registry, e.session, id) then Waiting(cleared, id, e.cadence)
          else cleared
  {
    hide Run, EntryOk, Failed, HandleFailure, Has, Registered, Dropping, Disarm, WellKept;
    var st := Run(events);
    RunOne(events, BodyRead(id, hit));
    RunValid(events);
    ReadersKnown(st, id);
    var e, read := st.entries[id], st.(reading := st.reading - {id});
    ReadersAreNotSending(st, id);
    ReleaseValid(st, id, read);
    VerdictDoes(read, id, st.reading[id], hit);
  }

  lemma ReadersKnown(st: State, id: EntryId)
    requires Valid(st) && id in st.reading
    ensures id < |st.entries|
  {
  }

  lemma VerdictDoes(read: State, id: EntryId, status: Status, hit: bool)
    requires ValidBut(read, id) && id < |read.entries| && (Registered(read, id) ==> Idle(read, id))
    ensures var e := read.entries[id];
      var counted := read.(entries := read.entries[id := e.(pingCount := e.pingCount + 1)]);
      var cleared := read.(entries := read.entries[id := e.(pingCount := e.pingCount + 1, failStreak := 0)]);
      Verdict(read, id, status, hit) ==
        match status
        case RateLimited => Dropping(read, e.session)
        case Bad => Failed(read, id)
        case Good =>
          if !hit then Dropping(counted, e.session)
          else if Has(read.registry, e.session, id) then Waiting(cleared, id, e.cadence)
          else cleared
  {
    hide EntryOk, Failed, HandleFailure, Has, Dropping, Disarm, WellKept;
    var e := read.entries[id];
    StillKept(read, id);
    RegisteredIsHeld(read, id);
    match status
    case RateLimited => DisarmDrops(read, id, e.session);
    case Bad => FailureFails(read, id);
    case Good =>
      var cleared := SetEntry(read, id, e.(pingCount := e.pingCount + 1, failStreak := 0));
      var counted := SetEntry(read, id, e.(pingCount := e.pingCount + 1));
      CountersValid(read, id, e.(pingCount := e.pingCount + 1));
      DisarmDrops(counted, id, e.session);
      assert Registered(cleared, id) == Registered(read, id);
  }

  /** Turning the feature off drops the session's snapshot. */
  lemma TurnOffDoes(events: seq<Event>, s: Session)
    ensures Run(events + [TurnedOff(s)]) == Dropping(Run(events), s)
  {
    hide Run, EntryOk, Dropping, Disarm;
    RunOne(events, TurnedOff(s));
    RunValid(events);
    DisarmDrops(Run(events), -1, s);
  }

  // ---- arming ----

  predicate HasNone(reg: seq<Reg>, s: Session) {
    forall i :: 0 <= i < |reg| ==> reg[i].session != s
  }

  /** The session's old snapshot was taken for another credential. */
  predicate Rotated(st: State, s: Session, cred: Option<Text>) {
    exists i :: 0 <= i < |st.registry| && st.registry[i].session == s
      && st.registry[i].id < |st.entries| && st.entries[st.registry[i].id].cred != cred
  }

  /** The first of the registrations whose snapshots were armed longest ago. */
  predicate Eldest(st: State, v: Reg, k: nat) {
    && k < |st.registry| && st.registry[k] == v
    && forall j :: 0 <= j < |st.registry| ==>
         ArmedTime(st, k) <= ArmedTime(st, j) && (j < k ==> ArmedTime(st, k) < ArmedTime(st, j))
  }

  function ArmedTime(st: State, k: nat): nat
    requires k < |st.registry|
  {
    if st.registry[k].id < |st.entries| then st.entries[st.registry[k].id].armedAt else 0
  }

  /** The new snapshot takes the old one's place in the order, or the last. */
  function Taking(reg: seq<Reg>, s: Session, id: EntryId): (r: seq<Reg>) {
    if reg == [] then [Reg(s, id)]
    else if reg[0].session == s then [Reg(s, id)] + reg[1..]
    else [reg[0]] + Taking(reg[1..], s, id)
  }

  lemma {:induction false} PutIsTaking(reg: seq<Reg>, s: Session, id: EntryId)
    ensures Put(reg, s, id) == Taking(reg, s, id)
  {
    if reg != [] && reg[0].session != s {
      PutIsTaking(reg[1..], s, id);
      var i := Find(reg[1..], s);
      FindIs(reg, s, i + 1);
      assert reg == [reg[0]] + reg[1..];
    } else if reg != [] {
      FindIs(reg, s, 0);
    }
  }

  lemma HasNoneIs(st: State, s: Session)
    ensures HasNone(st.registry, s) <==> Lookup(st, s).None?
  {
  }

  lemma {:induction false} OldestIs(st: State, reg: seq<Reg>) returns (k: nat)
    requires reg != []
    ensures k < |reg| && reg[k] == Oldest(st, reg)
    ensures forall j :: 0 <= j < |reg| ==>
      ArmedAt(st, reg[k]) <= ArmedAt(st, reg[j]) && (j < k ==> ArmedAt(st, reg[k]) < ArmedAt(st, reg[j]))
  {
    hide ArmedAt;
    if |reg| == 1 {
      k := 0;
    } else {
      var n := |reg| - 1;
      k := OldestIs(st, reg[..n]);
      assert forall j :: 0 <= j < n ==> reg[..n][j] == reg[j];
      if ArmedAt(st, reg[n]) < ArmedAt(st, reg[k]) {
        k := n;
      }
    }
  }

  lemma EldestIs(st: State) returns (k: nat)
    requires st.registry != []
    ensures Eldest(st, Oldest(st, st.registry), k)
  {
    k := OldestIs(st, st.registry);
    assert forall j :: 0 <= j < |st.registry| ==> ArmedTime(st, j) == ArmedAt(st, st.registry[j]);
  }

  /** What the old snapshot of the session still waits for is cancelled. */
  function Cancelling(st: State, prev: Option<EntryId>): State {
    st.(timers := map t | t in st.timers && Some(st.timers[t].entry) != prev :: st.timers[t])
  }

  lemma CancelIsCancelling(st: State, prev: Option<EntryId>)
    requires prev.Some? ==> prev.value < |st.entries| && OwnTimer(st, prev.value) && Tidy(st, prev.value)
    ensures CancelPrevious(st, prev) == Cancelling(st, prev)
  {
    assert CancelPrevious(st, prev).timers == Cancelling(st, prev).timers;
  }

  lemma RotatedIs(st: State, s: Session, cred: Option<Text>)
    requires WellKept(st)
    ensures DropRotated(st, s, cred) ==
      if Rotated(st, s, cred) then st.(registry := Without(st.registry, s)) else st
  {
    hide WithinBudget, Remove, Without;
    RemoveIsWithout(st.registry, s);
    if Lookup(st, s).Some? {
      LookupFinds(st, s);
    }
  }

  lemma PreviousTidy(st: State, s: Session, cred: Option<Text>, cap: nat)
    requires Valid(st)
    ensures var prev, st2 := Lookup(st, s), Evict(DropRotated(st, s, cred), s, cap);
      prev.Some? ==> prev.value < |st2.entries| && OwnTimer(st2, prev.value) && Tidy(st2, prev.value)
  {
    hide WithinBudget, OnPace, Remove, Distinct, Consistent;
    if Lookup(st, s).Some? {
      LookupFinds(st, s);
      var id := Lookup(st, s).value;
      assert Registered(st, id) && EntryOk(st, id) && Kept(st, id);
      var st1 := DropRotated(st, s, cred);
      assert Tidy(st1, id) && OwnTimer(st1, id);
      if Evict(st1, s, cap) != st1 {
        DropRotatedValid(st, s, cred);
        VictimIsAnother(st1, s, id, cap);
      }
    }
  }

  /** Evicting another session's snapshot leaves this one's timers alone. */
  lemma VictimIsAnother(st: State, s: Session, id: EntryId, cap: nat)
    requires Valid(st) && id < |st.entries| && st.entries[id].session == s && Lookup(st, s).None?
    requires Tidy(st, id) && OwnTimer(st, id) && st.registry != []
    ensures var r := Disarm(st, Oldest(st, st.registry).session);
      id < |r.entries| && Tidy(r, id) && OwnTimer(r, id)
  {
    hide WithinBudget, OnPace, Remove, Distinct, Phased;
    var v := Oldest(st, st.registry);
    HasNoneIs(st, s);
    if Lookup(st, v.session).Some? {
      LookupFinds(st, v.session);
      assert Kept(st, Lookup(st, v.session).value);
    }
  }

  /**
   * Arming: a snapshot for another credential is forgotten; without a cadence that is all. Otherwise, when the
   * session has none and the registry is full, the snapshot armed longest ago is dropped; what the old one still
   * waits for is cancelled; and the new one takes its place, with a timer one cadence away and nothing counted.
   */
  lemma ArmDoes(events: seq<Event>, s: Session, cred: Option<Text>, cadence: Option<nat>, maxDuration: nat, cap: nat)
    returns (v: Reg, k: nat)
    ensures var st := Run(events);
      var st1 := if Rotated(st, s, cred) then st.(registry := Without(st.registry, s)) else st;
      var full := HasNone(st1.registry, s) && |st1.registry| >= cap && st1.registry != [];
      && (cadence.None? ==> Run(events + [Forwarded(s, cred, cadence, maxDuration, cap)]) == st1)
      && (cadence.Some? ==>
        && (full ==> Eldest(st1, v, k))
        && var st2 := Cancelling(if full then Dropping(st1, v.session) else st1, Lookup(st, s));
        var id, due := |st.entries|, st.now + cadence.value;
        var e := Entry(s, cred, cadence.value, maxDuration, st.now, 0, 0, Some(st.nextTimer), false, 0);
        Run(events + [Forwarded(s, cred, cadence, maxDuration, cap)]) ==
          st2.(entries := st.entries + [e], registry := Taking(st2.registry, s, id),
               timers := st2.timers[st.nextTimer := Timer(id, due)], nextTimer := st.nextTimer + 1))
  {
    hide Run, EntryOk, Dropping, Cancelling, WellKept, Taking, Put, Eldest, Rotated, Without;
    hide Evict, DropRotated, CancelPrevious;
    var st := Run(events);
    RunOne(events, Forwarded(s, cred, cadence, maxDuration, cap));
    RunValid(events);
    StillKept(st, -1);
    RotatedIs(st, s, cred);
    var st1 := DropRotated(st, s, cred);
    DropRotatedValid(st, s, cred);
    v, k := EvictIs(st1, s, cap);
    PreviousTidy(st, s, cred, cap);
    CancelIsCancelling(Evict(st1, s, cap), Lookup(st, s));
    SameOtherwise(st, s, cred, cap);
    PutIsTaking(CancelPrevious(Evict(st1, s, cap), Lookup(st, s)).registry, s, |st.entries|);
  }

  lemma SameOtherwise(st: State, s: Session, cred: Option<Text>, cap: nat)
    ensures var st3 := CancelPrevious(Evict(DropRotated(st, s, cred), s, cap), Lookup(st, s));
      st3.entries == st.entries && st3.now == st.now && st3.nextTimer == st.nextTimer
  {
    hide Remove, LookupIn, Oldest, Disarm;
    var st1 := DropRotated(st, s, cred);
    if Evict(st1, s, cap) != st1 {
      DisarmKeepsRest(st1, Oldest(st1, st1.registry).session);
    }
  }

  lemma DisarmKeepsRest(st: State, s: Session)
    ensures var r := Disarm(st, s); r.entries == st.entries && r.now == st.now && r.nextTimer == st.nextTimer
  {
    hide Remove, LookupIn;
  }

  lemma EvictIs(st: State, s: Session, cap: nat) returns (v: Reg, k: nat)
    requires Valid(st)
    ensures var full := HasNone(st.registry, s) && |st.registry| >= cap && st.registry != [];
      && (full ==> Eldest(st, v, k))
      && Evict(st, s, cap) == if full then Dropping(st, v.session) else st
  {
    hide EntryOk, WellKept, Dropping, Disarm, Eldest, Oldest;
    HasNoneIs(st, s);
    v, k := Reg(s, 0), 0;
    if Lookup(st, s).None? && |st.registry| >= cap && st.registry != [] {
      v := Oldest(st, st.registry);
      k := EldestIs(st);
      DisarmDrops(st, -1, v.session);
    }
  }
}
