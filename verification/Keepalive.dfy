/** Idle cache keepalive: snapshots, timers and pings with their suspension points, as one step machine. */
module Keepalive {
  import opened Texts

  const BUSY_RESCHEDULE_MS := 5_000
  const MAX_FAIL_STREAK := 3

  type Session = nat

  type EntryId = nat

  type TimerId = nat

  /** An armed snapshot; sends counts the pings that went out for it. */
  datatype Entry = Entry(session: Session, cred: Option<Text>, cadence: nat, maxDuration: nat, armedAt: nat,
                         pingCount: nat, failStreak: nat, timer: Option<TimerId>, inFlight: bool, sends: nat)

  datatype Timer = Timer(entry: EntryId, due: nat)

  /** Map entries in insertion order. */
  datatype Reg = Reg(session: Session, id: EntryId)

  datatype Status = Good | RateLimited | Bad

  /** sending: awaiting the reply; reading: awaiting its body, with the status already known. */
  datatype State = State(now: nat, entries: seq<Entry>, registry: seq<Reg>, timers: map<TimerId, Timer>,
                         nextTimer: TimerId,
                         sending: set<EntryId>, reading: map<EntryId, Status>)

  const Init := State(0, [], [], map[], 0, {}, map[])

  // ---- the registry ----

  function Find(reg: seq<Reg>, s: Session): (i: nat)
    ensures i <= |reg| && (i < |reg| ==> reg[i].session == s) && forall j :: 0 <= j < i ==> reg[j].session != s
  {
    if reg == [] || reg[0].session == s then 0 else 1 + Find(reg[1..], s)
  }

  function LookupIn(reg: seq<Reg>, s: Session): Option<EntryId> {
    var i := Find(reg, s);
    if i < |reg| then Some(reg[i].id) else None
  }

  function Lookup(st: State, s: Session): Option<EntryId> {
    LookupIn(st.registry, s)
  }

  function Remove(reg: seq<Reg>, s: Session): seq<Reg> {
    var i := Find(reg, s);
    if i < |reg| then reg[..i] + reg[i + 1..] else reg
  }

  /** Map.set: a present key keeps its place. */
  function Put(reg: seq<Reg>, s: Session, id: EntryId): seq<Reg> {
    var i := Find(reg, s);
    if i < |reg| then reg[i := Reg(s, id)] else reg + [Reg(s, id)]
  }

  /** registry.get(entry.sessionId) === entry */
  predicate Registered(st: State, id: EntryId) {
    id < |st.entries| && Lookup(st, st.entries[id].session) == Some(id)
  }

  // ---- timers ----

  function SetEntry(st: State, id: EntryId, e: Entry): State
    requires id < |st.entries|
  {
    st.(entries := st.entries[id := e])
  }

  function Schedule(st: State, id: EntryId, ms: nat): State
    requires id < |st.entries|
  {
    SetEntry(st, id, st.entries[id].(timer := Some(st.nextTimer)))
      .(timers := st.timers[st.nextTimer := Timer(id, st.now + ms)], nextTimer := st.nextTimer + 1)
  }

  function Cancel(st: State, t: Option<TimerId>): State {
    if t.Some? then st.(timers := st.timers - {t.value}) else st
  }

  function Disarm(st: State, s: Session): State {
    match Lookup(st, s)
    case None => st
    case Some(id) =>
      var gone := st.(registry := Remove(st.registry, s));
      if id < |st.entries| then Cancel(gone, st.entries[id].timer) else gone
  }

  function Reschedule(st: State, id: EntryId): State
    requires id < |st.entries|
  {
    if Registered(st, id) then Schedule(st, id, st.entries[id].cadence) else st
  }

  function HandleFailure(st: State, id: EntryId): State
    requires id < |st.entries|
  {
    if !Registered(st, id) then st
    else
      var e := st.entries[id];
      var counted := SetEntry(st, id, e.(failStreak := e.failStreak + 1));
      if e.failStreak + 1 >= MAX_FAIL_STREAK then Disarm(counted, e.session) else Reschedule(counted, id)
  }

  // ---- steps ----

  /** The first of the entries armed longest ago. */
  function Oldest(st: State, reg: seq<Reg>): (r: Reg)
    requires reg != []
    ensures r in reg
  {
    if |reg| == 1 then reg[0]
    else
      var best, last := Oldest(st, reg[..|reg| - 1]), reg[|reg| - 1];
      if ArmedAt(st, last) < ArmedAt(st, best) then last else best
  }

  function ArmedAt(st: State, r: Reg): nat {
    if r.id < |st.entries| then st.entries[r.id].armedAt else 0
  }

  /** A rotated credential drops the old snapshot, its timer left running. */
  function DropRotated(st: State, s: Session, cred: Option<Text>): State {
    var prev := Lookup(st, s);
    if prev.Some? && prev.value < |st.entries| && st.entries[prev.value].cred != cred
    then st.(registry := Remove(st.registry, s)) else st
  }

  function Evict(st: State, s: Session, cap: nat): State {
    if Lookup(st, s).None? && |st.registry| >= cap && st.registry != []
    then Disarm(st, Oldest(st, st.registry).session) else st
  }

  /** The timer of the snapshot the session had when the forward came in. */
  function CancelPrevious(st: State, prev: Option<EntryId>): State {
    if prev.Some? && prev.value < |st.entries| then Cancel(st, st.entries[prev.value].timer) else st
  }

  /** armInternal once the feature is on for this body: cadence is None when no tier applies. */
  function Arm(st: State, s: Session, cred: Option<Text>, cadence: Option<nat>, maxDuration: nat, cap: nat): State {
    var prev := Lookup(st, s);
    var st1 := DropRotated(st, s, cred);
    if cadence.None? then st1
    else
      var st2 := CancelPrevious(Evict(st1, s, cap), prev);
      var id := |st2.entries|;
      var e := Entry(s, cred, cadence.value, maxDuration, st.now, 0, 0, None, false, 0);
      Schedule(st2.(entries := st2.entries + [e], registry := Put(st2.registry, s, id)), id, cadence.value)
  }

  /** firePing up to its first await. alive: the session still exists; busy: it has a real request in flight. */
  function Fire(st: State, t: TimerId, alive: bool, busy: bool): State {
    if t !in st.timers || st.timers[t].due > st.now || st.timers[t].entry >= |st.entries| then st
    else
      var id := st.timers[t].entry;
      var st1 := st.(timers := st.timers - {t});
      var e := st.entries[id];
      if !Registered(st1, id) then st1
      else if st.now - e.armedAt > e.maxDuration || !alive then Disarm(st1, e.session)
      else if e.inFlight || busy then Schedule(st1, id, BUSY_RESCHEDULE_MS)
      else SetEntry(st1, id, e.(inFlight := true, sends := e.sends + 1)).(sending := st1.sending + {id})
  }

  /** The reply, or None for a network error; the registration is checked before the body is awaited. */
  function Answer(st: State, id: EntryId, reply: Option<Status>): State {
    if id !in st.sending || id >= |st.entries| then st
    else
      var st1 := SetEntry(st, id, st.entries[id].(inFlight := false)).(sending := st.sending - {id});
      if reply.None? then HandleFailure(st1, id)
      else if !Registered(st1, id) then st1
      else st1.(reading := st1.reading[id := reply.value])
  }

  /** What a reply whose body is there does: a verdict falls on whatever the session has registered now. */
  function Verdict(st: State, id: EntryId, status: Status, hit: bool): State
    requires id < |st.entries|
  {
    var e := st.entries[id];
    match status
    case RateLimited => Disarm(st, e.session)
    case Bad => HandleFailure(st, id)
    case Good =>
      if hit then Reschedule(SetEntry(st, id, e.(pingCount := e.pingCount + 1, failStreak := 0)), id)
      else Disarm(SetEntry(st, id, e.(pingCount := e.pingCount + 1)), e.session)
  }

  /** The body arrived; the registration is not checked a second time. */
  function Read(st: State, id: EntryId, hit: bool): State {
    if id !in st.reading || id >= |st.entries| then st
    else Verdict(st.(reading := st.reading - {id}), id, st.reading[id], hit)
  }

  datatype Event =
    | Passes(ms: nat)
    | TurnedOff(s: Session)
    | Forwarded(s: Session, cred: Option<Text>, cadence: Option<nat>, maxDuration: nat, cap: nat)
    | Fires(t: TimerId, alive: bool, busy: bool)
    | Replies(id: EntryId, reply: Option<Status>)
    | BodyRead(id: EntryId, hit: bool)

  function Apply(st: State, ev: Event): State {
    match ev
    case Passes(ms) => st.(now := st.now + ms)
    case TurnedOff(s) => Disarm(st, s)
    case Forwarded(s, cred, cadence, maxDuration, cap) => Arm(st, s, cred, cadence, maxDuration, cap)
    case Fires(t, alive, busy) => Fire(st, t, alive, busy)
    case Replies(id, reply) => Answer(st, id, reply)
    case BodyRead(id, hit) => Read(st, id, hit)
  }

  function Run(events: seq<Event>): State {
    if events == [] then Init else Apply(Run(events[..|events| - 1]), events[|events| - 1])
  }

  // ---- the invariant ----

  predicate Distinct(reg: seq<Reg>) {
    forall i, j :: 0 <= i < j < |reg| ==> reg[i].session != reg[j].session && reg[i].id != reg[j].id
  }

  /** The entry's timer is pending, and it is the only one pending for the entry. */
  predicate OneTimer(st: State, id: EntryId)
    requires id < |st.entries|
  {
    && st.entries[id].timer.Some? && st.entries[id].timer.value in st.timers
    && st.timers[st.entries[id].timer.value].entry == id
    && forall t :: t in st.timers && st.timers[t].entry == id ==> t == st.entries[id].timer.value
  }

  predicate NoTimer(st: State, id: EntryId) {
    forall t :: t in st.timers ==> st.timers[t].entry != id
  }

  /** A registered entry waits for its timer, or for a reply, or for a body, and for one of them only. */
  predicate Phased(st: State, id: EntryId)
    requires id < |st.entries|
  {
    if id in st.sending || id in st.reading then NoTimer(st, id) && !(id in st.sending && id in st.reading)
    else OneTimer(st, id)
  }

  /** The pings sent fit the time since arming: the next one is at least a full cadence after the last. */
  predicate OnPace(st: State, id: EntryId)
    requires id < |st.entries|
  {
    var e := st.entries[id];
    && e.armedAt <= st.now
    && e.armedAt + e.sends * e.cadence <= st.now
    && forall t :: t in st.timers && st.timers[t].entry == id ==> e.armedAt + (e.sends + 1) * e.cadence <= st.timers[t].due
  }

  /** Every ping was sent within the allowed duration. */
  predicate WithinBudget(e: Entry) {
    e.sends * e.cadence <= e.maxDuration
  }

  predicate EntryOk(st: State, id: EntryId)
    requires id < |st.entries|
  {
    st.entries[id].failStreak < MAX_FAIL_STREAK && Phased(st, id) && OnPace(st, id)
  }

  /** A timer handle an entry holds is its own, or long gone. */
  predicate OwnTimer(st: State, id: EntryId)
    requires id < |st.entries|
  {
    var t := st.entries[id].timer;
    t.Some? ==> t.value < st.nextTimer && (t.value in st.timers ==> st.timers[t.value].entry == id)
  }

  /** What holds of every entry, registered or not. */
  predicate Kept(st: State, id: EntryId)
    requires id < |st.entries|
  {
    WithinBudget(st.entries[id]) && OwnTimer(st, id) && (st.entries[id].inFlight <==> id in st.sending)
  }

  predicate Consistent(reg: seq<Reg>, entries: seq<Entry>) {
    forall i :: 0 <= i < |reg| ==> reg[i].id < |entries| && entries[reg[i].id].session == reg[i].session
  }

  predicate WellKept(st: State) {
    && Distinct(st.registry)
    && Consistent(st.registry, st.entries)
    && (forall id :: 0 <= id < |st.entries| ==> Kept(st, id))
    && (forall t :: t in st.timers ==> t < st.nextTimer && st.timers[t].entry < |st.entries|)
    && (forall id :: id in st.sending ==> id < |st.entries| && id !in st.reading)
    && (forall id :: id in st.reading ==> id < |st.entries|)
  }

  /** Valid, apart from what entry x is waiting for. */
  predicate ValidBut(st: State, x: int) {
    WellKept(st) && forall id :: 0 <= id < |st.entries| && id != x && Registered(st, id) ==> EntryOk(st, id)
  }

  predicate Valid(st: State) {
    ValidBut(st, -1)
  }

  /** The entry waits for nothing: what is true of it between two phases. */
  predicate Idle(st: State, id: EntryId) {
    && id < |st.entries| && NoTimer(st, id) && id !in st.sending && id !in st.reading
    && !st.entries[id].inFlight && st.entries[id].failStreak < MAX_FAIL_STREAK
    && st.entries[id].armedAt + st.entries[id].sends * st.entries[id].cadence <= st.now
  }

  // ---- every step keeps it ----

  /** What a well kept registry says about sessions and entries. */
  lemma LookupFinds(st: State, s: Session)
    requires WellKept(st) && Lookup(st, s).Some?
    ensures var id := Lookup(st, s).value; id < |st.entries| && st.entries[id].session == s
  {
  }

  lemma {:induction false} FindIs(reg: seq<Reg>, s: Session, i: nat)
    requires i <= |reg| && (i < |reg| ==> reg[i].session == s) && forall j :: 0 <= j < i ==> reg[j].session != s
    ensures Find(reg, s) == i
  {
  }

  lemma RemoveLooks(reg: seq<Reg>, s: Session, s2: Session)
    requires Distinct(reg)
    ensures LookupIn(Remove(reg, s), s2) == if s2 == s then None else LookupIn(reg, s2)
  {
    var i, j, r := Find(reg, s), Find(reg, s2), Remove(reg, s);
    if i < |reg| {
      FindIs(r, s2, if s2 == s || j == |reg| then |r| else if j < i then j else j - 1);
    }
  }

  lemma PutLooks(reg: seq<Reg>, s: Session, id: EntryId, s2: Session)
    requires Distinct(reg)
    ensures LookupIn(Put(reg, s, id), s2) == if s2 == s then Some(id) else LookupIn(reg, s2)
  {
    var i, j, r := Find(reg, s), Find(reg, s2), Put(reg, s, id);
    FindIs(r, s2, if s2 == s then i else if j == |reg| then |r| else j);
  }

  lemma RemoveKeeps(reg: seq<Reg>, s: Session, entries: seq<Entry>)
    requires Distinct(reg) && Consistent(reg, entries)
    ensures Distinct(Remove(reg, s)) && Consistent(Remove(reg, s), entries)
  {
    var i, r := Find(reg, s), Remove(reg, s);
    if i < |reg| {
      assert forall k :: 0 <= k < |r| ==> r[k] == reg[if k < i then k else k + 1];
    }
    hide Remove, Find;
  }

  lemma PutKeeps(reg: seq<Reg>, s: Session, id: EntryId, entries: seq<Entry>)
    requires Distinct(reg) && Consistent(reg, entries) && id < |entries| && entries[id].session == s
    requires forall i :: 0 <= i < |reg| ==> reg[i].id != id
    ensures Distinct(Put(reg, s, id)) && Consistent(Put(reg, s, id), entries)
  {
  }

  /** An entry's state depends on its own fields, timers and phases only. */
  predicate SameFor(a: State, b: State, id: EntryId)
    requires id < |a.entries| && id < |b.entries|
  {
    && a.entries[id] == b.entries[id] && a.now <= b.now
    && (id in a.sending <==> id in b.sending) && (id in a.reading <==> id in b.reading)
    && (forall t :: t in a.timers && a.timers[t].entry == id ==> t in b.timers && b.timers[t] == a.timers[t])
    && (forall t :: t in b.timers && b.timers[t].entry == id ==> t in a.timers && b.timers[t] == a.timers[t])
  }

  lemma SameStaysOk(a: State, b: State, id: EntryId)
    requires id < |a.entries| && id < |b.entries| && SameFor(a, b, id) && EntryOk(a, id)
    ensures EntryOk(b, id)
  {
  }

  lemma CancelKept(st: State, id: EntryId)
    requires WellKept(st) && id < |st.entries|
    ensures WellKept(Cancel(st, st.entries[id].timer))
    ensures forall x: EntryId :: x < |st.entries| && x != id ==> SameFor(st, Cancel(st, st.entries[id].timer), x)
  {
    hide WithinBudget, Distinct;
    assert Kept(st, id);
    forall y | 0 <= y < |st.entries| ensures Kept(Cancel(st, st.entries[id].timer), y) {
      assert Kept(st, y);
    }
  }

  lemma GoneKept(st: State, s: Session)
    requires WellKept(st)
    ensures WellKept(st.(registry := Remove(st.registry, s)))
  {
    hide WithinBudget, Distinct, Consistent, Remove;
    RemoveKeeps(st.registry, s, st.entries);
    forall id | 0 <= id < |st.entries| ensures Kept(st.(registry := Remove(st.registry, s)), id) {
      assert Kept(st, id);
    }
  }

  lemma DisarmValid(st: State, s: Session, x: int)
    requires ValidBut(st, x) && (0 <= x < |st.entries| && Registered(st, x) ==> st.entries[x].session == s)
    ensures Valid(Disarm(st, s)) && Lookup(Disarm(st, s), s).None?
  {
    hide WithinBudget, Distinct, EntryOk, Kept, Remove, LookupIn, SameFor;
    GoneKept(st, s);
    RemoveLooks(st.registry, s, s);
    var next := Disarm(st, s);
    if Lookup(st, s).Some? {
      LookupFinds(st, s);
      var gone := st.(registry := Remove(st.registry, s));
      var id := Lookup(st, s).value;
      CancelKept(gone, id);
      forall y: EntryId | y < |next.entries| && Registered(next, y) ensures EntryOk(next, y) {
        RemoveLooks(st.registry, s, st.entries[y].session);
        OnlyRegistry(st, gone, y);
        assert SameFor(gone, next, y);
        SameStaysOk(gone, next, y);
      }
    }
  }

  lemma OnlyRegistry(a: State, b: State, id: EntryId)
    requires id < |a.entries| && EntryOk(a, id) && b == a.(registry := b.registry)
    ensures EntryOk(b, id)
  {
  }

  lemma ScheduleKept(st: State, x: EntryId, ms: nat)
    requires WellKept(st) && x < |st.entries| && NoTimer(st, x)
    ensures WellKept(Schedule(st, x, ms))
    ensures forall y: EntryId :: y < |st.entries| && y != x ==> SameFor(st, Schedule(st, x, ms), y)
  {
    hide Distinct;
    var next := Schedule(st, x, ms);
    forall id | 0 <= id < |next.entries| ensures Kept(next, id) {
      assert Kept(st, id);
    }
  }

  lemma ScheduleValid(st: State, x: EntryId, ms: nat)
    requires ValidBut(st, x) && Idle(st, x)
    requires st.entries[x].armedAt + (st.entries[x].sends + 1) * st.entries[x].cadence <= st.now + ms
    ensures Valid(Schedule(st, x, ms))
  {
    hide WithinBudget, Distinct, Find, Kept, SameFor;
    var next := Schedule(st, x, ms);
    ScheduleKept(st, x, ms);
    assert EntryOk(next, x);
    hide EntryOk;
    forall id: EntryId | id < |next.entries| && Registered(next, id) ensures EntryOk(next, id) {
      if id != x {
        assert Registered(st, id);
        SameStaysOk(st, next, id);
      }
    }
  }

  lemma NextPing(armedAt: nat, sends: nat, cadence: nat, now: nat)
    requires armedAt + sends * cadence <= now
    ensures armedAt + (sends + 1) * cadence <= now + cadence
  {
  }

  lemma RescheduleValid(st: State, x: EntryId)
    requires ValidBut(st, x) && Idle(st, x)
    ensures Valid(Reschedule(st, x))
  {
    hide EntryOk, WellKept, Schedule, NoTimer;
    if Registered(st, x) {
      var e := st.entries[x];
      NextPing(e.armedAt, e.sends, e.cadence, st.now);
      ScheduleValid(st, x, e.cadence);
    }
  }

  /** Changing counters of an entry that waits for nothing. */
  lemma CountersValid(st: State, x: EntryId, e: Entry)
    requires ValidBut(st, x) && x < |st.entries|
    requires e == st.entries[x].(pingCount := e.pingCount, failStreak := e.failStreak)
    ensures ValidBut(SetEntry(st, x, e), x)
    ensures Idle(st, x) && e.failStreak < MAX_FAIL_STREAK ==> Idle(SetEntry(st, x, e), x)
  {
    hide Distinct, Find;
    var next := SetEntry(st, x, e);
    forall id | 0 <= id < |next.entries| ensures Kept(next, id) {
      assert Kept(st, id);
    }
    forall id: EntryId | id < |next.entries| && id != x && Registered(next, id) ensures EntryOk(next, id) {
      assert Registered(st, id);
      SameStaysOk(st, next, id);
    }
  }

  lemma FailureValid(st: State, x: EntryId)
    requires ValidBut(st, x) && Idle(st, x)
    ensures Valid(HandleFailure(st, x))
  {
    hide EntryOk, WellKept, NoTimer, Disarm, Reschedule;
    if Registered(st, x) {
      var e := st.entries[x];
      var counted := SetEntry(st, x, e.(failStreak := e.failStreak + 1));
      CountersValid(st, x, e.(failStreak := e.failStreak + 1));
      if e.failStreak + 1 >= MAX_FAIL_STREAK {
        DisarmValid(counted, e.session, x);
      } else {
        RescheduleValid(counted, x);
      }
    }
  }

  /** The time for the next ping has come. */
  predicate Due(e: Entry, now: nat) {
    e.armedAt + (e.sends + 1) * e.cadence <= now
  }

  /** A fired timer is gone; its entry waits for nothing yet. */
  lemma FiredIsIdle(st: State, t: TimerId)
    requires Valid(st) && t in st.timers && st.timers[t].due <= st.now
    ensures var id, st1 := st.timers[t].entry, st.(timers := st.timers - {t});
      && id < |st.entries| && ValidBut(st1, id)
      && (Registered(st1, id) ==> Idle(st1, id) && Due(st.entries[id], st.now))
  {
    hide Distinct, Find, WithinBudget;
    var id, st1 := st.timers[t].entry, st.(timers := st.timers - {t});
    forall y | 0 <= y < |st.entries| ensures Kept(st1, y) {
      assert Kept(st, y);
    }
    forall y: EntryId | y < |st.entries| && y != id && Registered(st1, y) ensures EntryOk(st1, y) {
      assert EntryOk(st, y);
      SameStaysOk(st, st1, y);
    }
    if Registered(st1, id) {
      assert EntryOk(st, id) && Kept(st, id);
    }
  }

  /** Sending the next ping keeps the pace and the budget. */
  lemma SendValid(st: State, x: EntryId)
    requires ValidBut(st, x) && Idle(st, x)
    requires Due(st.entries[x], st.now)
    requires st.now - st.entries[x].armedAt <= st.entries[x].maxDuration
    ensures var e := st.entries[x];
      Valid(SetEntry(st, x, e.(inFlight := true, sends := e.sends + 1)).(sending := st.sending + {x}))
  {
    hide Distinct, Find;
    var e := st.entries[x].(inFlight := true, sends := st.entries[x].sends + 1);
    var next := SetEntry(st, x, e).(sending := st.sending + {x});
    assert WithinBudget(e);
    forall y | 0 <= y < |next.entries| ensures Kept(next, y) {
      assert Kept(st, y);
    }
    forall y: EntryId | y < |next.entries| && Registered(next, y) ensures EntryOk(next, y) {
      if y != x {
        SameStaysOk(st, next, y);
      }
    }
  }

  lemma FireValid(st: State, t: TimerId, alive: bool, busy: bool)
    requires Valid(st)
    ensures Valid(Fire(st, t, alive, busy))
  {
    hide EntryOk, WellKept, NoTimer, Disarm, Schedule, WithinBudget;
    if t in st.timers && st.timers[t].due <= st.now && st.timers[t].entry < |st.entries| {
      var id, st1 := st.timers[t].entry, st.(timers := st.timers - {t});
      FiredIsIdle(st, t);
      if Registered(st1, id) {
        var e := st.entries[id];
        if st.now - e.armedAt > e.maxDuration || !alive {
          DisarmValid(st1, e.session, id);
        } else if e.inFlight || busy {
          ScheduleValid(st1, id, BUSY_RESCHEDULE_MS);
        } else {
          SendValid(st1, id);
        }
      }
    }
  }

  /** An entry whose reply or body came in waits for nothing, as far as it is still registered. */
  lemma ReleaseValid(st: State, x: EntryId, st1: State)
    requires Valid(st) && x < |st.entries| && (x in st.sending || x in st.reading)
    requires st1 == SetEntry(st, x, st.entries[x].(inFlight := false))
                      .(sending := st.sending - {x}, reading := st.reading - {x})
    ensures ValidBut(st1, x) && (Registered(st1, x) ==> Idle(st1, x))
  {
    hide Distinct, Find, WithinBudget;
    assert Registered(st, x) ==> EntryOk(st, x);
    forall y | 0 <= y < |st1.entries| ensures Kept(st1, y) {
      assert Kept(st, y);
      BudgetIgnoresPhase(st.entries[x]);
    }
    forall y: EntryId | y < |st1.entries| && y != x && Registered(st1, y) ensures EntryOk(st1, y) {
      assert EntryOk(st, y);
      SameStaysOk(st, st1, y);
    }
  }

  lemma BudgetIgnoresPhase(e: Entry)
    ensures WithinBudget(e.(inFlight := false)) == WithinBudget(e)
  {
  }

  lemma AnswerValid(st: State, id: EntryId, reply: Option<Status>)
    requires Valid(st)
    ensures Valid(Answer(st, id, reply))
  {
    if id in st.sending && id < |st.entries| {
      var st1 := SetEntry(st, id, st.entries[id].(inFlight := false)).(sending := st.sending - {id});
      assert id !in st.reading && st.reading - {id} == st.reading;
      hide EntryOk, NoTimer, HandleFailure;
      ReleaseValid(st, id, st1);
      if reply.None? {
        if Registered(st1, id) {
          FailureValid(st1, id);
        }
      } else if Registered(st1, id) {
        StartReading(st1, id, reply.value);
      }
    }
  }

  lemma StartReading(st: State, x: EntryId, status: Status)
    requires ValidBut(st, x) && Idle(st, x)
    ensures Valid(st.(reading := st.reading[x := status]))
  {
    hide Distinct, Find, WithinBudget;
    var next := st.(reading := st.reading[x := status]);
    forall y | 0 <= y < |next.entries| ensures Kept(next, y) {
      assert Kept(st, y);
    }
    forall y: EntryId | y < |next.entries| && Registered(next, y) ensures EntryOk(next, y) {
      if y != x {
        SameStaysOk(st, next, y);
      }
    }
  }

  lemma ReadValid(st: State, id: EntryId, hit: bool)
    requires Valid(st)
    ensures Valid(Read(st, id, hit))
  {
    if id in st.reading && id < |st.entries| {
      var st1 := st.(reading := st.reading - {id});
      ReadersAreNotSending(st, id);
      hide EntryOk, WellKept, NoTimer, ValidBut, Idle, Verdict;
      ReleaseValid(st, id, st1);
      VerdictValid(st1, id, st.reading[id], hit);
    }
  }

  lemma VerdictValid(st: State, id: EntryId, status: Status, hit: bool)
    requires ValidBut(st, id) && id < |st.entries| && (Registered(st, id) ==> Idle(st, id))
    ensures Valid(Verdict(st, id, status, hit))
  {
    hide EntryOk, WellKept, NoTimer, HandleFailure, Disarm, Reschedule, ValidBut, Idle;
    var e := st.entries[id];
    match status
    case RateLimited => DisarmValid(st, e.session, id);
    case Bad => BadReplyValid(st, id);
    case Good =>
      if hit {
        HitValid(st, id, e.(pingCount := e.pingCount + 1, failStreak := 0));
      } else {
        var e1 := e.(pingCount := e.pingCount + 1);
        CountersValid(st, id, e1);
        DisarmValid(SetEntry(st, id, e1), e.session, id);
      }
  }

  lemma BadReplyValid(st: State, x: EntryId)
    requires ValidBut(st, x) && x < |st.entries| && (Registered(st, x) ==> Idle(st, x))
    ensures Valid(HandleFailure(st, x))
  {
    hide EntryOk, WellKept, NoTimer, HandleFailure, ValidBut, Idle;
    if Registered(st, x) {
      FailureValid(st, x);
    } else {
      NotRegistered(st, x);
    }
  }

  lemma HitValid(st: State, x: EntryId, e: Entry)
    requires ValidBut(st, x) && x < |st.entries| && (Registered(st, x) ==> Idle(st, x))
    requires e == st.entries[x].(pingCount := e.pingCount, failStreak := e.failStreak) && e.failStreak < MAX_FAIL_STREAK
    ensures Valid(Reschedule(SetEntry(st, x, e), x))
  {
    hide EntryOk, WellKept, NoTimer, Reschedule, ValidBut, Idle;
    CountersValid(st, x, e);
    if Registered(st, x) {
      RescheduleValid(SetEntry(st, x, e), x);
    } else {
      NotRegistered(SetEntry(st, x, e), x);
    }
  }

  /** A reader is not in flight, so releasing it changes no field. */
  lemma ReadersAreNotSending(st: State, id: EntryId)
    requires Valid(st) && id in st.reading && id < |st.entries|
    ensures SetEntry(st, id, st.entries[id].(inFlight := false))
              .(sending := st.sending - {id}, reading := st.reading - {id})
      == st.(reading := st.reading - {id})
  {
    assert Kept(st, id) && id !in st.sending;
    assert st.sending - {id} == st.sending;
  }

  lemma NotRegistered(st: State, x: EntryId)
    requires ValidBut(st, x) && x < |st.entries| && !Registered(st, x)
    ensures Valid(st) && Reschedule(st, x) == st && HandleFailure(st, x) == st
  {
  }

  lemma DropRotatedValid(st: State, s: Session, cred: Option<Text>)
    requires Valid(st)
    ensures Valid(DropRotated(st, s, cred))
  {
    hide EntryOk, WellKept, Remove, LookupIn;
    var st1 := DropRotated(st, s, cred);
    if st1 != st {
      assert Distinct(st.registry) by {
        Keeping(st);
      }
      GoneKept(st, s);
      forall y: EntryId | y < |st1.entries| && Registered(st1, y) ensures EntryOk(st1, y) {
        RemoveLooks(st.registry, s, st.entries[y].session);
        OnlyRegistry(st, st1, y);
      }
    }
  }

  lemma Keeping(st: State)
    requires WellKept(st)
    ensures Distinct(st.registry)
  {
  }

  lemma EvictValid(st: State, s: Session, cap: nat)
    requires Valid(st)
    ensures var r := Evict(st, s, cap);
      Valid(r) && (Lookup(st, s).Some? ==> r == st) && Lookup(r, s) == Lookup(st, s)
  {
    hide EntryOk, WellKept, Disarm, LookupIn;
    if Evict(st, s, cap) != st {
      var victim := Oldest(st, st.registry).session;
      DisarmValid(st, victim, -1);
      DisarmLooks(st, victim, s);
    }
  }

  lemma DisarmLooks(st: State, s: Session, s2: Session)
    requires Valid(st)
    ensures Lookup(Disarm(st, s), s2) == if s2 == s then None else Lookup(st, s2)
  {
    hide Remove, LookupIn, Find, EntryOk, Kept;
    RemoveLooks(st.registry, s, s2);
  }

  /** After cancelling, the previous snapshot, if still registered, is the only one without its timer. */
  lemma CancelPreviousValid(st: State, s: Session, prev: Option<EntryId>)
    requires Valid(st) && (Lookup(st, s).Some? ==> Lookup(st, s) == prev)
    requires prev.Some? && prev.value < |st.entries| ==> st.entries[prev.value].session == s
    ensures var r := CancelPrevious(st, prev);
      ValidBut(r, if prev.Some? then prev.value else -1) && Lookup(r, s) == Lookup(st, s)
  {
    hide WithinBudget, Distinct, Find, EntryOk, Kept, SameFor, LookupIn;
    if prev.Some? && prev.value < |st.entries| {
      var r := CancelPrevious(st, prev);
      CancelKept(st, prev.value);
      forall y: EntryId | y < |r.entries| && y != prev.value && Registered(r, y) ensures EntryOk(r, y) {
        assert Registered(st, y);
        SameStaysOk(st, r, y);
      }
    }
  }

  /** The new snapshot takes the session over with a timer of its own. */
  lemma EnterValid(st: State, e: Entry, x: int)
    requires ValidBut(st, x) && (0 <= x < |st.entries| && Registered(st, x) ==> st.entries[x].session == e.session)
    requires e.armedAt == st.now && e.sends == 0 && e.failStreak == 0 && !e.inFlight && e.timer.None?
    ensures var id := |st.entries|;
      Valid(Schedule(st.(entries := st.entries + [e], registry := Put(st.registry, e.session, id)), id, e.cadence))
  {
    var id := |st.entries|;
    var st1 := st.(entries := st.entries + [e], registry := Put(st.registry, e.session, id));
    EnterKept(st, e);
    assert NoTimer(st1, id);
    hide WithinBudget, Distinct, Find, Kept, Put, LookupIn;
    forall y: EntryId | y < |st1.entries| && y != id && Registered(st1, y) ensures EntryOk(st1, y) {
      LookAfterPut(st, e.session, id, st.entries[y].session);
      assert EntryOk(st, y);
      SameStaysOk(st, st1, y);
    }
    ScheduleValid(st1, id, e.cadence);
  }

  lemma LookAfterPut(st: State, s: Session, id: EntryId, s2: Session)
    requires WellKept(st)
    ensures LookupIn(Put(st.registry, s, id), s2) == if s2 == s then Some(id) else Lookup(st, s2)
  {
    PutLooks(st.registry, s, id, s2);
  }

  lemma EnterKept(st: State, e: Entry)
    requires WellKept(st) && e.sends == 0 && !e.inFlight && e.timer.None?
    ensures WellKept(st.(entries := st.entries + [e], registry := Put(st.registry, e.session, |st.entries|)))
  {
    hide Put, Find;
    var id := |st.entries|;
    var st1 := st.(entries := st.entries + [e], registry := Put(st.registry, e.session, |st.entries|));
    assert Consistent(st.registry, st1.entries);
    PutKeeps(st.registry, e.session, id, st1.entries);
    forall y | 0 <= y < |st1.entries| ensures Kept(st1, y) {
      if y < id {
        assert Kept(st, y);
      }
    }
  }

  lemma DisarmKeepsEntries(st: State, s: Session)
    ensures Disarm(st, s).entries == st.entries && Disarm(st, s).now == st.now
  {
    hide Remove, LookupIn;
  }

  lemma CancelKeepsEntries(st: State, prev: Option<EntryId>)
    ensures CancelPrevious(st, prev).entries == st.entries && CancelPrevious(st, prev).now == st.now
  {
  }

  /** The snapshot found on arrival is still that of the session, or no longer registered. */
  lemma PreviousStays(st: State, s: Session, cred: Option<Text>, cap: nat)
    requires Valid(st)
    ensures var prev, st1, st2 := Lookup(st, s), DropRotated(st, s, cred), Evict(DropRotated(st, s, cred), s, cap);
      && st2.entries == st.entries && st2.now == st.now && st1.now == st.now
      && (prev.Some? ==> prev.value < |st.entries| && st.entries[prev.value].session == s)
      && (Lookup(st2, s).Some? ==> Lookup(st2, s) == prev)
  {
    hide EntryOk, Kept, Remove, LookupIn, Find, Disarm, Distinct;
    var st1 := DropRotated(st, s, cred);
    DropRotatedValid(st, s, cred);
    EvictValid(st1, s, cap);
    if st1.registry != [] {
      DisarmKeepsEntries(st1, Oldest(st1, st1.registry).session);
    }
    if Lookup(st, s).Some? {
      LookupFinds(st, s);
    }
    assert Distinct(st.registry);
    RemoveLooks(st.registry, s, s);
  }

  lemma ArmValid(st: State, s: Session, cred: Option<Text>, cadence: Option<nat>, maxDuration: nat, cap: nat)
    requires Valid(st)
    ensures Valid(Arm(st, s, cred, cadence, maxDuration, cap))
  {
    hide EntryOk, WellKept, DropRotated, Evict, CancelPrevious, Schedule, LookupIn, Put;
    var prev := Lookup(st, s);
    DropRotatedValid(st, s, cred);
    if cadence.Some? {
      var st1 := DropRotated(st, s, cred);
      EvictValid(st1, s, cap);
      var st2 := Evict(st1, s, cap);
      PreviousStays(st, s, cred, cap);
      CancelPreviousValid(st2, s, prev);
      var st3 := CancelPrevious(st2, prev);
      CancelKeepsEntries(st2, prev);
      EnterValid(st3, Entry(s, cred, cadence.value, maxDuration, st.now, 0, 0, None, false, 0),
                 if prev.Some? then prev.value else -1);
    }
  }

  // ---- every run ----

  lemma PassValid(st: State, ms: nat)
    requires Valid(st)
    ensures Valid(st.(now := st.now + ms))
  {
    hide Distinct, Find, WithinBudget;
    var next := st.(now := st.now + ms);
    forall y | 0 <= y < |st.entries| ensures Kept(next, y) {
      assert Kept(st, y);
    }
    forall y: EntryId | y < |st.entries| && Registered(next, y) ensures EntryOk(next, y) {
      assert EntryOk(st, y);
      SameStaysOk(st, next, y);
    }
  }

  lemma {:induction false} RunValid(events: seq<Event>)
    ensures Valid(Run(events))
  {
    hide Valid, Disarm, Arm, Fire, Answer, Read;
    if events == [] {
      InitValid();
    } else {
      var st, ev := Run(events[..|events| - 1]), events[|events| - 1];
      RunValid(events[..|events| - 1]);
      match ev
      case Passes(ms) => PassValid(st, ms);
      case TurnedOff(s) => TurnOffValid(st, s);
      case Forwarded(s, cred, cadence, maxDuration, cap) => ArmValid(st, s, cred, cadence, maxDuration, cap);
      case Fires(t, alive, busy) => FireValid(st, t, alive, busy);
      case Replies(id, reply) => AnswerValid(st, id, reply);
      case BodyRead(id, hit) => ReadValid(st, id, hit);
    }
  }

  lemma InitValid()
    ensures Valid(Init)
  {
  }

  lemma TurnOffValid(st: State, s: Session)
    requires Valid(st)
    ensures Valid(Disarm(st, s))
  {
    DisarmValid(st, s, -1);
  }

  /**
   * In every run a registered snapshot belongs to its session, has failed less than three times in a row, and
   * waits for exactly one of: its own single timer, a reply, a body.
   */
  lemma RegisteredInOnePhase(events: seq<Event>, s: Session)
    requires Lookup(Run(events), s).Some?
    ensures var st, id := Run(events), Lookup(Run(events), s).value;
      && id < |st.entries| && st.entries[id].session == s && st.entries[id].failStreak < MAX_FAIL_STREAK
      && (if id in st.sending || id in st.reading then NoTimer(st, id) && !(id in st.sending && id in st.reading)
          else OneTimer(st, id))
  {
    hide Run, NoTimer, OneTimer, OnPace, Kept, Find;
    RunValid(events);
    LookupFinds(Run(events), s);
    assert EntryOk(Run(events), Lookup(Run(events), s).value);
  }

  /** Whatever happens, no snapshot with a positive cadence sends more than its duration divided by it. */
  lemma PingsAreBounded(events: seq<Event>, id: EntryId)
    requires id < |Run(events).entries| && Run(events).entries[id].cadence >= 1
    ensures var e := Run(events).entries[id]; e.sends <= e.maxDuration / e.cadence
  {
    hide Run, EntryOk, Find;
    RunValid(events);
    var e := Run(events).entries[id];
    assert Kept(Run(events), id);
    DivideBudget(e.sends, e.cadence, e.maxDuration);
  }

  lemma DivideBudget(n: nat, c: nat, d: nat)
    requires c >= 1 && n * c <= d
    ensures n <= d / c
  {
    var q := d / c;
    assert d == q * c + d % c;
    ProductGrows(q + 1, n, c);
  }

  lemma ProductGrows(a: nat, b: nat, c: nat)
    ensures a <= b ==> a * c <= b * c
  {
  }

  /** A step sends a ping only for the snapshot its session has registered, before and after. */
  lemma PingsOnlyRegistered(st: State, ev: Event, id: EntryId)
    requires Valid(st) && id < |st.entries|
    ensures id < |Apply(st, ev).entries|
    ensures Apply(st, ev).entries[id].sends != st.entries[id].sends ==>
      && ev.Fires? && Registered(st, id) && Registered(Apply(st, ev), id) && id !in st.sending
      && Apply(st, ev).entries[id].sends == st.entries[id].sends + 1
      && st.now - st.entries[id].armedAt <= st.entries[id].maxDuration
  {
    hide EntryOk, WellKept, Disarm, Arm, Answer, Read, Fire, LookupIn;
    match ev
    case Passes(_) =>
    case TurnedOff(s) => DisarmKeepsEntries(st, s);
    case Forwarded(s, cred, cadence, maxDuration, cap) => ArmKeepsSends(st, s, cred, cadence, maxDuration, cap);
    case Fires(t, alive, busy) => FireSends(st, t, alive, busy, id);
    case Replies(x, reply) => AnswerKeepsSends(st, x, reply);
    case BodyRead(x, hit) => ReadKeepsSends(st, x, hit);
  }

  predicate SameSends(a: seq<Entry>, b: seq<Entry>) {
    |a| <= |b| && forall i :: 0 <= i < |a| ==> a[i].sends == b[i].sends
  }

  lemma ArmKeepsSends(st: State, s: Session, cred: Option<Text>, cadence: Option<nat>, maxDuration: nat, cap: nat)
    ensures SameSends(st.entries, Arm(st, s, cred, cadence, maxDuration, cap).entries)
  {
    hide LookupIn, Remove, Put, Oldest, Disarm;
    var st1 := DropRotated(st, s, cred);
    if st1.registry != [] {
      DisarmKeepsEntries(st1, Oldest(st1, st1.registry).session);
    }
    CancelKeepsEntries(Evict(st1, s, cap), Lookup(st, s));
  }

  lemma FailureKeepsSends(st: State, x: EntryId)
    requires x < |st.entries|
    ensures SameSends(st.entries, HandleFailure(st, x).entries)
  {
    hide LookupIn, Remove, Disarm;
    var e := st.entries[x];
    DisarmKeepsEntries(SetEntry(st, x, e.(failStreak := e.failStreak + 1)), e.session);
  }

  lemma AnswerKeepsSends(st: State, x: EntryId, reply: Option<Status>)
    ensures SameSends(st.entries, Answer(st, x, reply).entries)
  {
    hide LookupIn, HandleFailure;
    if x < |st.entries| {
      FailureKeepsSends(SetEntry(st, x, st.entries[x].(inFlight := false)).(sending := st.sending - {x}), x);
    }
  }

  lemma ReadKeepsSends(st: State, x: EntryId, hit: bool)
    ensures SameSends(st.entries, Read(st, x, hit).entries)
  {
    hide LookupIn, HandleFailure, Disarm;
    if x in st.reading && x < |st.entries| {
      var st1, e := st.(reading := st.reading - {x}), st.entries[x];
      FailureKeepsSends(st1, x);
      DisarmKeepsEntries(st1, e.session);
      DisarmKeepsEntries(SetEntry(st1, x, e.(pingCount := e.pingCount + 1)), e.session);
    }
  }

  lemma FireSends(st: State, t: TimerId, alive: bool, busy: bool, id: EntryId)
    requires Valid(st) && id < |st.entries|
    ensures var next := Fire(st, t, alive, busy);
      id < |next.entries| && (next.entries[id].sends != st.entries[id].sends ==>
      && Registered(st, id) && Registered(next, id) && id !in st.sending
      && next.entries[id].sends == st.entries[id].sends + 1
      && st.now - st.entries[id].armedAt <= st.entries[id].maxDuration)
  {
    if t in st.timers && st.timers[t].due <= st.now && st.timers[t].entry < |st.entries| {
      FiredIsIdle(st, t);
    }
    hide EntryOk, WellKept, Remove, Find;
  }

  // ---- what a late body does ----

  /**
   * The verdict of a snapshot that was replaced while its body was read: a rate limit or a zero hit disarms the
   * newer snapshot of the session, anything else leaves it alone.
   */
  lemma StaleVerdict(st: State, id: EntryId, hit: bool)
    requires Valid(st) && id in st.reading && !Registered(st, id) && Lookup(st, st.entries[id].session).Some?
    ensures Lookup(Read(st, id, hit), st.entries[id].session).None? <==>
      st.reading[id] == RateLimited || (st.reading[id] == Good && !hit)
  {
    hide EntryOk, Kept, LookupIn, Find, Remove, Distinct;
    var st1, e := st.(reading := st.reading - {id}), st.entries[id];
    assert Distinct(st.registry);
    RemoveLooks(st.registry, e.session, e.session);
  }

  lemma RunOne(events: seq<Event>, ev: Event)
    ensures Run(events + [ev]) == Apply(Run(events), ev)
  {
    hide Apply;
    assert (events + [ev])[..|events|] == events;
  }

  /** A ping is sent, its reply arrives, a newer request replaces the snapshot, and only then the body is read. */
  function LateBody(s: Session, cred: Option<Text>, cadence: nat, maxDuration: nat, cap: nat): seq<Event> {
    [Forwarded(s, cred, Some(cadence), maxDuration, cap), Passes(cadence), Fires(0, true, false),
     Replies(0, Some(Good)), Forwarded(s, cred, Some(cadence), maxDuration, cap)]
  }

  lemma LateBodyStep(s: Session, cred: Option<Text>, cadence: nat, maxDuration: nat, cap: nat, k: nat)
    requires k < 5
    ensures var events := LateBody(s, cred, cadence, maxDuration, cap);
      Run(events[..k + 1]) == Apply(Run(events[..k]), events[k])
  {
    hide Apply, Run;
    var events := LateBody(s, cred, cadence, maxDuration, cap);
    assert events[..k + 1] == events[..k] + [events[k]];
    RunOne(events[..k], events[k]);
  }

  function Armed(s: Session, cred: Option<Text>, cadence: nat, maxDuration: nat): State {
    State(0, [Entry(s, cred, cadence, maxDuration, 0, 0, 0, Some(0), false, 0)], [Reg(s, 0)],
          map[0 := Timer(0, cadence)], 1, {}, map[])
  }

  function Pinged(s: Session, cred: Option<Text>, cadence: nat, maxDuration: nat): State {
    State(cadence, [Entry(s, cred, cadence, maxDuration, 0, 0, 0, Some(0), true, 1)], [Reg(s, 0)], map[], 1, {0}, map[])
  }

  lemma ArmsFirst(s: Session, cred: Option<Text>, cadence: nat, maxDuration: nat, cap: nat)
    ensures Arm(Init, s, cred, Some(cadence), maxDuration, cap) == Armed(s, cred, cadence, maxDuration)
  {
  }

  lemma FiresFirst(s: Session, cred: Option<Text>, cadence: nat, maxDuration: nat)
    requires cadence <= maxDuration
    ensures Fire(Armed(s, cred, cadence, maxDuration).(now := cadence), 0, true, false) ==
            Pinged(s, cred, cadence, maxDuration)
  {
    assert Armed(s, cred, cadence, maxDuration).timers - {0} == map[];
  }

  /** The first three events: armed, due, and waiting for the reply. */
  lemma PingGoesOut(s: Session, cred: Option<Text>, cadence: nat, maxDuration: nat, cap: nat)
    requires cadence <= maxDuration
    ensures Run(LateBody(s, cred, cadence, maxDuration, cap)[..3]) == Pinged(s, cred, cadence, maxDuration)
  {
    hide Run, Arm, Fire, Pinged;
    var events := LateBody(s, cred, cadence, maxDuration, cap);
    assert events[..0] == [];
    RunsFromInit();
    LateBodyStep(s, cred, cadence, maxDuration, cap, 0);
    LateBodyStep(s, cred, cadence, maxDuration, cap, 1);
    LateBodyStep(s, cred, cadence, maxDuration, cap, 2);
    ArmsFirst(s, cred, cadence, maxDuration, cap);
    FiresFirst(s, cred, cadence, maxDuration);
  }

  lemma RunsFromInit()
    ensures Run([]) == Init
  {
  }

  lemma ReplyThenReplaced(s: Session, cred: Option<Text>, cadence: nat, maxDuration: nat, cap: nat)
    requires cadence <= maxDuration
    ensures var st := Run(LateBody(s, cred, cadence, maxDuration, cap));
      && 0 in st.reading && st.reading[0] == Good && |st.entries| == 2 && st.entries[0].session == s
      && Lookup(st, s) == Some(1)
  {
    hide Run;
    var events := LateBody(s, cred, cadence, maxDuration, cap);
    PingGoesOut(s, cred, cadence, maxDuration, cap);
    LateBodyStep(s, cred, cadence, maxDuration, cap, 3);
    LateBodyStep(s, cred, cadence, maxDuration, cap, 4);
    assert events[..5] == events;
    var e := Entry(s, cred, cadence, maxDuration, 0, 0, 0, Some(0), false, 1);
    assert Run(events[..4]) == State(cadence, [e], [Reg(s, 0)], map[], 1, {}, map[0 := Good]);
  }

  /** So a run exists in which the late body of a replaced snapshot leaves the session without any. */
  lemma LateBodyDisarms(s: Session, cred: Option<Text>, cadence: nat, maxDuration: nat, cap: nat)
    requires cadence <= maxDuration
    ensures var events := LateBody(s, cred, cadence, maxDuration, cap);
      Lookup(Run(events), s).Some? && Lookup(Run(events + [BodyRead(0, false)]), s).None?
  {
    hide Run, Read, LookupIn, LateBody;
    var events := LateBody(s, cred, cadence, maxDuration, cap);
    ReplyThenReplaced(s, cred, cadence, maxDuration, cap);
    RunOne(events, BodyRead(0, false));
    RunValid(events);
    StaleVerdict(Run(events), 0, false);
  }

  /** Arming never lets the number of snapshots grow beyond the cap. */
  lemma CapHolds(st: State, s: Session, cred: Option<Text>, cadence: Option<nat>, maxDuration: nat, cap: nat)
    requires Valid(st) && cap >= 1
    ensures |Arm(st, s, cred, cadence, maxDuration, cap).registry| <=
            (if |st.registry| > cap then |st.registry| else cap)
  {
    hide EntryOk, Kept, Oldest, Remove, Put, LookupIn, Valid, Evict, DropRotated;
    var st1 := DropRotated(st, s, cred);
    var st2 := Evict(st1, s, cap);
    DropRotatedValid(st, s, cred);
    DropShrinks(st, s, cred);
    EvictValid(st1, s, cap);
    EvictShrinks(st1, s, cap);
    CancelKeepsEntries(st2, Lookup(st, s));
    PutSize(st2.registry, s, |st2.entries|);
  }

  lemma RemoveSize(reg: seq<Reg>, s: Session)
    ensures |Remove(reg, s)| == if LookupIn(reg, s).Some? then |reg| - 1 else |reg|
  {
  }

  lemma PutSize(reg: seq<Reg>, s: Session, id: EntryId)
    ensures |Put(reg, s, id)| == if LookupIn(reg, s).Some? then |reg| else |reg| + 1
  {
  }

  lemma DropShrinks(st: State, s: Session, cred: Option<Text>)
    ensures |DropRotated(st, s, cred).registry| <= |st.registry|
  {
    hide Remove, LookupIn;
    RemoveSize(st.registry, s);
  }

  lemma EvictShrinks(st: State, s: Session, cap: nat)
    requires cap >= 1
    ensures var n := |Evict(st, s, cap).registry|;
      if Lookup(st, s).None? && |st.registry| >= cap then n == |st.registry| - 1 else n == |st.registry|
  {
    hide Remove, LookupIn, Oldest;
    if st.registry != [] {
      RemoveSize(st.registry, Oldest(st, st.registry).session);
      VictimFound(st);
    }
  }

  lemma VictimFound(st: State)
    requires st.registry != []
    ensures Lookup(st, Oldest(st, st.registry).session).Some?
  {
  }
}
