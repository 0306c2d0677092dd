/** The keepalive registry and its timers as the program keeps them. */
module KeepaliveState {
  import opened Texts
  import opened Keepalive

  class Keeper {
    var now: nat
    var entries: seq<Entry>
    var registry: seq<Reg>
    var timers: map<TimerId, Timer>
    var nextTimer: TimerId
    var sending: set<EntryId>
    var reading: map<EntryId, Status>

    function Value(): State
      reads this
    {
      State(now, entries, registry, timers, nextTimer, sending, reading)
    }

    constructor ()
      ensures Value() == Init
    {
      now, entries, registry, timers, nextTimer, sending, reading := 0, [], [], map[], 0, {}, map[];
    }

    method CancelTimer(t: Option<TimerId>)
      modifies this`timers
      ensures Value() == Cancel(old(Value()), t)
    {
      if t.Some? {
        timers := timers - {t.value};
      }
    }

    method StartTimer(id: EntryId, ms: nat)
      requires id < |entries|
      modifies this`entries, this`timers, this`nextTimer
      ensures Value() == Schedule(old(Value()), id, ms)
    {
      timers := timers[nextTimer := Timer(id, now + ms)];
      entries := entries[id := entries[id].(timer := Some(nextTimer))];
      nextTimer := nextTimer + 1;
    }

    /** disarm. */
    method DisarmSession(s: Session)
      modifies this`registry, this`timers
      ensures Value() == Disarm(old(Value()), s)
    {
      hide Remove, Find;
      var found := LookupIn(registry, s);
      if found.Some? {
        registry := Remove(registry, s);
        if found.value < |entries| {
          CancelTimer(entries[found.value].timer);
        }
      }
    }

    method RescheduleEntry(id: EntryId)
      requires id < |entries|
      modifies this`entries, this`timers, this`nextTimer
      ensures Value() == Reschedule(old(Value()), id)
    {
      if Registered(Value(), id) {
        StartTimer(id, entries[id].cadence);
      }
    }

    method FailureOf(id: EntryId)
      requires id < |entries|
      modifies this
      ensures Value() == HandleFailure(old(Value()), id)
    {
      hide Disarm, Schedule;
      if !Registered(Value(), id) {
        return;
      }
      var e := entries[id];
      entries := entries[id := e.(failStreak := e.failStreak + 1)];
      if entries[id].failStreak >= MAX_FAIL_STREAK {
        DisarmSession(e.session);
      } else {
        RescheduleEntry(id);
      }
    }

    /** The concurrency-cap search of armInternal. */
    method FindOldest() returns (victim: Reg)
      requires registry != []
      ensures victim == Oldest(Value(), registry)
    {
      victim := registry[0];
      for i := 1 to |registry|
        invariant victim == Oldest(Value(), registry[..i])
      {
        assert registry[..i + 1][..i] == registry[..i];
        if ArmedAt(Value(), registry[i]) < ArmedAt(Value(), victim) {
          victim := registry[i];
        }
      }
      assert registry[..|registry|] == registry;
    }

    method EvictIfFull(s: Session, cap: nat)
      modifies this
      ensures Value() == Evict(old(Value()), s, cap)
    {
      hide Disarm, Oldest;
      if LookupIn(registry, s).None? && |registry| >= cap && registry != [] {
        var victim := FindOldest();
        DisarmSession(victim.session);
      }
    }

    /** armInternal. */
    method ArmSession(s: Session, cred: Option<Text>, cadence: Option<nat>, maxDuration: nat, cap: nat)
      modifies this
      ensures Value() == Arm(old(Value()), s, cred, cadence, maxDuration, cap)
    {
      hide Disarm, Oldest, Remove, Put, LookupIn, Evict;
      ghost var was := Value();
      var prev := LookupIn(registry, s);
      if prev.Some? && prev.value < |entries| && entries[prev.value].cred != cred {
        registry := Remove(registry, s);
      }
      assert Value() == DropRotated(was, s, cred);
      if cadence.None? {
        return;
      }
      EvictIfFull(s, cap);
      if prev.Some? && prev.value < |entries| {
        CancelTimer(entries[prev.value].timer);
      }
      EvictKeepsNow(DropRotated(was, s, cred), s, cap);
      var id := |entries|;
      entries := entries + [Entry(s, cred, cadence.value, maxDuration, now, 0, 0, None, false, 0)];
      registry := Put(registry, s, id);
      StartTimer(id, cadence.value);
    }

    /** firePing up to the send. */
    method FirePing(t: TimerId, alive: bool, busy: bool)
      modifies this
      ensures Value() == Fire(old(Value()), t, alive, busy)
    {
      hide Disarm, Schedule, LookupIn;
      if t !in timers || timers[t].due > now || timers[t].entry >= |entries| {
        return;
      }
      var id := timers[t].entry;
      timers := timers - {t};
      var e := entries[id];
      if !Registered(Value(), id) {
        return;
      }
      if now - e.armedAt > e.maxDuration || !alive {
        DisarmSession(e.session);
        return;
      }
      if e.inFlight || busy {
        StartTimer(id, BUSY_RESCHEDULE_MS);
        return;
      }
      entries := entries[id := e.(inFlight := true, sends := e.sends + 1)];
      sending := sending + {id};
    }

    /** firePing after the reply, up to reading its body. */
    method ReplyArrived(id: EntryId, reply: Option<Status>)
      modifies this
      ensures Value() == Answer(old(Value()), id, reply)
    {
      hide HandleFailure, LookupIn;
      if id !in sending || id >= |entries| {
        return;
      }
      entries := entries[id := entries[id].(inFlight := false)];
      sending := sending - {id};
      if reply.None? {
        FailureOf(id);
      } else if Registered(Value(), id) {
        reading := reading[id := reply.value];
      }
    }

    /** firePing once the body is there. */
    method BodyArrived(id: EntryId, hit: bool)
      modifies this
      ensures Value() == Read(old(Value()), id, hit)
    {
      hide HandleFailure, Disarm, Reschedule;
      if id !in reading || id >= |entries| {
        return;
      }
      var status, e := reading[id], entries[id];
      reading := reading - {id};
      match status
      case RateLimited => DisarmSession(e.session);
      case Bad => FailureOf(id);
      case Good =>
        entries := entries[id := e.(pingCount := e.pingCount + 1)];
        if hit {
          entries := entries[id := entries[id].(failStreak := 0)];
          assert entries == old(entries)[id := e.(pingCount := e.pingCount + 1, failStreak := 0)];
          RescheduleEntry(id);
        } else {
          DisarmSession(e.session);
        }
    }
  }

  lemma EvictKeepsNow(st: State, s: Session, cap: nat)
    ensures Evict(st, s, cap).now == st.now
  {
    hide Oldest, Disarm;
    if st.registry != [] {
      DisarmKeepsEntries(st, Oldest(st, st.registry).session);
    }
  }
}
