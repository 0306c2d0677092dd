/** Several processes merging their affinity chains into one file, and the debounce that triggers the writes. */
module Persist {
  import opened Texts

  const MAX_TRACKED_SESSIONS := 1024
  const PERSIST_DEBOUNCE_MS := 500
  const PERSIST_MAX_DELAY_MS := 5_000

  type Id = string

  datatype Entry = Entry(id: Id, depth: int, tail: string, hashes: seq<string>, lastSeen: int)

  // ---- maps in insertion order ----

  function Find(list: seq<Entry>, id: Id): (i: nat)
    ensures i <= |list| && (i < |list| ==> list[i].id == id) && forall j :: 0 <= j < i ==> list[j].id != id
  {
    if list == [] || list[0].id == id then 0 else 1 + Find(list[1..], id)
  }

  predicate Distinct(list: seq<Entry>) {
    forall i, j :: 0 <= i < j < |list| ==> list[i].id != list[j].id
  }

  /** byId.get. */
  function Get(list: seq<Entry>, id: Id): Option<Entry> {
    var i := Find(list, id);
    if i < |list| then Some(list[i]) else None
  }

  /** byId.set: a present key keeps its place. */
  function Put(list: seq<Entry>, e: Entry): (r: seq<Entry>)
    requires Distinct(list)
    ensures Distinct(r)
  {
    var i := Find(list, e.id);
    if i < |list| then list[i := e] else list + [e]
  }

  lemma {:induction false} FindIs(list: seq<Entry>, id: Id, i: nat)
    requires i <= |list| && (i < |list| ==> list[i].id == id) && forall j :: 0 <= j < i ==> list[j].id != id
    ensures Find(list, id) == i
  {
  }

  lemma GetPut(list: seq<Entry>, e: Entry, id: Id)
    requires Distinct(list)
    ensures Get(Put(list, e), id) == if id == e.id then Some(e) else Get(list, id)
  {
    var i, j := Find(list, e.id), Find(list, id);
    FindIs(Put(list, e), id, if id == e.id then i else if j == |list| then |Put(list, e)| else j);
  }

  // ---- merging ----

  /** The deeper chain wins, the fresher one among equally deep; ties go to the first. */
  function Better(m: Entry, d: Entry): Entry {
    if m.depth > d.depth || (m.depth == d.depth && m.lastSeen >= d.lastSeen) then m else d
  }

  function FromDisk(disk: seq<Entry>): (r: seq<Entry>)
    ensures Distinct(r)
  {
    if disk == [] then [] else Put(FromDisk(disk[..|disk| - 1]), disk[|disk| - 1])
  }

  function AddMine(byId: seq<Entry>, m: Entry): (r: seq<Entry>)
    requires Distinct(byId)
    ensures Distinct(r)
  {
    var d := Get(byId, m.id);
    Put(byId, if d.Some? then Better(m, d.value) else m)
  }

  function Merged(mine: seq<Entry>, disk: seq<Entry>): (r: seq<Entry>)
    ensures Distinct(r)
  {
    if mine == [] then FromDisk(disk) else AddMine(Merged(mine[..|mine| - 1], disk), mine[|mine| - 1])
  }

  /** Same-depth entries of one id that are different chains. */
  function Forks(mine: seq<Entry>, disk: seq<Entry>): nat {
    if mine == [] then 0
    else
      var before, m := mine[..|mine| - 1], mine[|mine| - 1];
      var d := Get(Merged(before, disk), m.id);
      Forks(before, disk) + (if d.Some? && m.depth == d.value.depth && m.tail != d.value.tail then 1 else 0)
  }

  /** mergeWithDisk. */
  method MergeWithDisk(mine: seq<Entry>, disk: seq<Entry>) returns (entries: seq<Entry>, forks: nat)
    ensures entries == Merged(mine, disk) && forks == Forks(mine, disk)
  {
    hide Put, Get;
    entries := [];
    for i := 0 to |disk|
      invariant entries == FromDisk(disk[..i])
    {
      assert disk[..i + 1][..i] == disk[..i];
      entries := Put(entries, disk[i]);
    }
    assert disk[..|disk|] == disk;
    forks := 0;
    for i := 0 to |mine|
      invariant entries == Merged(mine[..i], disk) && forks == Forks(mine[..i], disk)
    {
      assert mine[..i + 1][..i] == mine[..i];
      var m := mine[i];
      var d := Get(entries, m.id);
      if d.None? {
        entries := Put(entries, m);
      } else {
        if m.depth == d.value.depth && m.tail != d.value.tail {
          forks := forks + 1;
        }
        entries := Put(entries, Better(m, d.value));
      }
    }
    assert mine[..|mine|] == mine;
  }

  // ---- the order the merge joins in ----

  /** Deeper, or equally deep and seen no earlier. */
  predicate AtLeast(a: Entry, b: Entry) {
    a.depth > b.depth || (a.depth == b.depth && a.lastSeen >= b.lastSeen)
  }

  /** e is one of the candidates and none of them outranks it. */
  ghost predicate GreatestOf(e: Entry, candidates: set<Entry>) {
    e in candidates && forall c :: c in candidates ==> AtLeast(e, c)
  }

  /** All entries of the id: the surviving one on disk and everything of mine. */
  ghost function Candidates(mine: seq<Entry>, disk: seq<Entry>, id: Id): set<Entry> {
    (set m | m in mine && m.id == id)
    + (if Get(FromDisk(disk), id).Some? then {Get(FromDisk(disk), id).value} else {})
  }

  /** Merging is a join: each id ends up with the greatest of its entries, whatever their order. */
  lemma {:induction false} MergeIsJoin(mine: seq<Entry>, disk: seq<Entry>, id: Id)
    ensures match Get(Merged(mine, disk), id) {
      case Some(e) => GreatestOf(e, Candidates(mine, disk, id))
      case None => Candidates(mine, disk, id) == {}
    }
  {
    hide Put, Get, Distinct;
    if mine == [] {
      assert (set m | m in mine && m.id == id) == {};
    } else {
      var before, m := mine[..|mine| - 1], mine[|mine| - 1];
      assert mine == before + [m];
      MergeIsJoin(before, disk, id);
      var d := Get(Merged(before, disk), m.id);
      GetPut(Merged(before, disk), if d.Some? then Better(m, d.value) else m, id);
      MergedIds(before, disk, m.id);
      if m.id == id {
        assert Candidates(mine, disk, id) == Candidates(before, disk, id) + {m};
      } else {
        assert Candidates(mine, disk, id) == Candidates(before, disk, id);
      }
    }
  }

  lemma MergedIds(mine: seq<Entry>, disk: seq<Entry>, id: Id)
    ensures Get(Merged(mine, disk), id).Some? ==> Get(Merged(mine, disk), id).value.id == id
  {
  }

  // ---- the cap ----

  /** Stable insertion by lastSeen, latest first. */
  function Insert(sorted: seq<Entry>, e: Entry): (r: seq<Entry>)
    ensures |r| == |sorted| + 1
  {
    if sorted == [] || sorted[0].lastSeen < e.lastSeen then [e] + sorted else [sorted[0]] + Insert(sorted[1..], e)
  }

  function Sorted(list: seq<Entry>): (r: seq<Entry>)
    ensures |r| == |list|
  {
    if list == [] then [] else Insert(Sorted(list[..|list| - 1]), list[|list| - 1])
  }

  /** normalizeForWrite. */
  function Normalize(entries: seq<Entry>): seq<Entry> {
    if |entries| <= MAX_TRACKED_SESSIONS then entries
    else Sorted(entries)[..MAX_TRACKED_SESSIONS]
  }

  predicate Descending(list: seq<Entry>) {
    forall i, j :: 0 <= i < j < |list| ==> list[i].lastSeen >= list[j].lastSeen
  }

  lemma {:induction false} InsertAdds(sorted: seq<Entry>, e: Entry)
    ensures multiset(Insert(sorted, e)) == multiset(sorted) + multiset{e}
  {
    if sorted == [] || sorted[0].lastSeen < e.lastSeen {
      assert Insert(sorted, e) == [e] + sorted;
    } else {
      InsertAdds(sorted[1..], e);
      assert sorted == [sorted[0]] + sorted[1..];
    }
  }

  lemma {:induction false} InsertSorts(sorted: seq<Entry>, e: Entry)
    requires Descending(sorted)
    ensures Descending(Insert(sorted, e))
  {
    if sorted != [] && sorted[0].lastSeen >= e.lastSeen {
      var rest := Insert(sorted[1..], e);
      InsertSorts(sorted[1..], e);
      InsertAdds(sorted[1..], e);
      forall i | 0 <= i < |rest| ensures rest[i].lastSeen <= sorted[0].lastSeen {
        assert rest[i] in multiset(sorted[1..]) + multiset{e};
      }
      hide Insert;
    }
  }

  lemma LastOfBag(list: seq<Entry>)
    requires list != []
    ensures multiset(list) == multiset(list[..|list| - 1]) + multiset{list[|list| - 1]}
  {
    assert list == list[..|list| - 1] + [list[|list| - 1]];
  }

  lemma SortedLast(list: seq<Entry>)
    requires list != []
    ensures Sorted(list) == Insert(Sorted(list[..|list| - 1]), list[|list| - 1])
  {
    hide Insert;
  }

  lemma {:induction false} SortedSorts(list: seq<Entry>)
    ensures Descending(Sorted(list)) && multiset(Sorted(list)) == multiset(list)
  {
    if list != [] {
      hide Insert, Sorted, Descending;
      var front := list[..|list| - 1];
      SortedSorts(front);
      SortedLast(list);
      LastOfBag(list);
      InsertSorts(Sorted(front), list[|list| - 1]);
      InsertAdds(Sorted(front), list[|list| - 1]);
    }
  }

  /** Under the cap nothing changes; over it exactly the least recently seen surplus is dropped. */
  lemma NormalizeDropsOldest(entries: seq<Entry>)
    ensures |entries| <= MAX_TRACKED_SESSIONS ==> Normalize(entries) == entries
    ensures |entries| > MAX_TRACKED_SESSIONS ==>
      var kept := Normalize(entries);
      var dropped := multiset(entries) - multiset(kept);
      && |kept| == MAX_TRACKED_SESSIONS && multiset(kept) <= multiset(entries)
      && forall a, b :: a in kept && b in dropped ==> a.lastSeen >= b.lastSeen
  {
    SortedSorts(entries);
    if |entries| > MAX_TRACKED_SESSIONS {
      var s := Sorted(entries);
      var kept, rest := s[..MAX_TRACKED_SESSIONS], s[MAX_TRACKED_SESSIONS..];
      assert s == kept + rest;
      assert multiset(entries) == multiset(kept) + multiset(rest);
      forall b | b in multiset(entries) - multiset(kept) ensures b in rest {
        assert b in multiset(rest);
      }
    }
  }

  // ---- runs of writes by any number of processes ----

  /** One atomic write: what the process holds, and whether it could read the file. */
  datatype Write = Write(mine: seq<Entry>, readOk: bool)

  function DiskAfter(disk: seq<Entry>, w: Write): seq<Entry> {
    Normalize(if w.readOk then Merged(w.mine, disk) else w.mine)
  }

  function RunWrites(disk: seq<Entry>, writes: seq<Write>): seq<Entry> {
    if writes == [] then disk else DiskAfter(RunWrites(disk, writes[..|writes| - 1]), writes[|writes| - 1])
  }

  /** The chain the file holds for the id. */
  function OnDisk(disk: seq<Entry>, id: Id): Option<Entry> {
    Get(FromDisk(disk), id)
  }

  /** Every chain of the id that was on disk at the start or that any process has written since. */
  ghost function Written(disk: seq<Entry>, writes: seq<Write>, id: Id): set<Entry> {
    if writes == [] then if OnDisk(disk, id).Some? then {OnDisk(disk, id).value} else {}
    else
      var w := writes[|writes| - 1];
      Written(disk, writes[..|writes| - 1], id) + set m | m in w.mine && m.id == id
  }

  function IdsOf(list: seq<Entry>): set<Id> {
    set e | e in list :: e.id
  }

  function AllIds(disk: seq<Entry>, writes: seq<Write>): set<Id> {
    if writes == [] then IdsOf(disk) else AllIds(disk, writes[..|writes| - 1]) + IdsOf(writes[|writes| - 1].mine)
  }

  /** The processes could read the file, and all of them together know no more sessions than the cap. */
  predicate Undisturbed(disk: seq<Entry>, writes: seq<Write>) {
    (forall w :: w in writes ==> w.readOk) && |AllIds(disk, writes)| <= MAX_TRACKED_SESSIONS
  }

  lemma {:induction false} DistinctFits(list: seq<Entry>, ids: set<Id>)
    requires Distinct(list) && IdsOf(list) <= ids
    ensures |list| <= |ids|
  {
    if list != [] {
      var last, front := list[|list| - 1], list[..|list| - 1];
      assert last.id in IdsOf(list);
      forall e | e in front ensures e.id in ids - {last.id} {
        assert e in list && e.id in IdsOf(list);
      }
      DistinctFits(front, ids - {last.id});
    }
  }

  lemma {:induction false} FromDiskIds(disk: seq<Entry>)
    ensures IdsOf(FromDisk(disk)) <= IdsOf(disk)
  {
    if disk != [] {
      var front, last := disk[..|disk| - 1], disk[|disk| - 1];
      FromDiskIds(front);
      assert disk == front + [last];
      PutIds(FromDisk(front), last);
      assert last.id in IdsOf(disk) && IdsOf(front) <= IdsOf(disk) by {
        assert last in disk;
      }
    }
  }

  lemma PutIds(list: seq<Entry>, e: Entry)
    requires Distinct(list)
    ensures IdsOf(Put(list, e)) <= IdsOf(list) + {e.id}
  {
  }

  lemma {:induction false} MergedKeys(mine: seq<Entry>, disk: seq<Entry>)
    ensures IdsOf(Merged(mine, disk)) <= IdsOf(disk) + IdsOf(mine)
  {
    if mine == [] {
      FromDiskIds(disk);
    } else {
      var front, last := mine[..|mine| - 1], mine[|mine| - 1];
      MergedKeys(front, disk);
      assert mine == front + [last];
      var d := Get(Merged(front, disk), last.id);
      PutIds(Merged(front, disk), if d.Some? then Better(last, d.value) else last);
      assert last.id in IdsOf(mine) && IdsOf(front) <= IdsOf(mine) by {
        assert last in mine;
      }
    }
  }

  /** Reading back what was written: a list without duplicate ids is its own map. */
  lemma {:induction false} FromDistinct(list: seq<Entry>)
    requires Distinct(list)
    ensures FromDisk(list) == list
  {
    if list != [] {
      var front, last := list[..|list| - 1], list[|list| - 1];
      FromDistinct(front);
      FindIs(front, last.id, |front|);
      assert list == front + [last];
    }
  }

  /** Under the cap a write is exactly the merge, and it introduces no unknown session. */
  lemma WriteIsMerge(disk: seq<Entry>, w: Write, ids: set<Id>)
    requires w.readOk && IdsOf(disk) + IdsOf(w.mine) <= ids && |ids| <= MAX_TRACKED_SESSIONS
    ensures DiskAfter(disk, w) == Merged(w.mine, disk) && IdsOf(DiskAfter(disk, w)) <= IdsOf(disk) + IdsOf(w.mine)
  {
    MergedKeys(w.mine, disk);
    DistinctFits(Merged(w.mine, disk), ids);
  }

  lemma {:induction false} RunKeys(disk: seq<Entry>, writes: seq<Write>)
    requires Undisturbed(disk, writes)
    ensures IdsOf(RunWrites(disk, writes)) <= AllIds(disk, writes)
  {
    if writes != [] {
      var front, w := writes[..|writes| - 1], writes[|writes| - 1];
      FewerIds(disk, writes);
      RunKeys(disk, front);
      WriteIsMerge(RunWrites(disk, front), w, AllIds(disk, writes));
    }
  }

  lemma FewerIds(disk: seq<Entry>, writes: seq<Write>)
    requires writes != [] && Undisturbed(disk, writes)
    ensures Undisturbed(disk, writes[..|writes| - 1]) && writes[|writes| - 1].readOk
  {
    SubsetSize(AllIds(disk, writes[..|writes| - 1]), AllIds(disk, writes));
  }

  lemma SubsetSize<T>(a: set<T>, b: set<T>)
    requires a <= b
    ensures |a| <= |b|
  {
    assert b == a + (b - a);
  }

  lemma AtLeastTransitive(a: Entry, b: Entry, c: Entry)
    requires AtLeast(a, b) && AtLeast(b, c)
    ensures AtLeast(a, c)
  {
  }

  /**
   * Whatever the order of the writes, the file holds for each id the greatest chain that was ever on disk or
   * written: no write loses one, and none can be lowered.
   */
  lemma {:induction false} DiskIsJoin(disk: seq<Entry>, writes: seq<Write>, id: Id)
    requires Undisturbed(disk, writes)
    ensures match OnDisk(RunWrites(disk, writes), id) {
      case Some(e) => GreatestOf(e, Written(disk, writes, id))
      case None => Written(disk, writes, id) == {}
    }
  {
    if writes != [] {
      var front, w := writes[..|writes| - 1], writes[|writes| - 1];
      FewerIds(disk, writes);
      DiskIsJoin(disk, front, id);
      RunKeys(disk, front);
      var before := RunWrites(disk, front);
      WriteIsMerge(before, w, AllIds(disk, writes));
      FromDistinct(Merged(w.mine, before));
      hide Merged, FromDisk, Normalize, AtLeast, Get;
      MergeIsJoin(w.mine, before, id);
      if OnDisk(before, id).Some? && Get(Merged(w.mine, before), id).Some? {
        var d, e := OnDisk(before, id).value, Get(Merged(w.mine, before), id).value;
        assert AtLeast(e, d);
        forall c | c in Written(disk, front, id) ensures AtLeast(e, c) {
          AtLeastTransitive(e, d, c);
        }
      }
    }
  }

  lemma {:induction false} WrittenGrows(disk: seq<Entry>, writes: seq<Write>, n: nat, id: Id)
    requires n <= |writes|
    ensures Written(disk, writes[..n], id) <= Written(disk, writes, id)
    decreases |writes|
  {
    if n == |writes| {
      assert writes[..n] == writes;
    } else {
      var front := writes[..|writes| - 1];
      WrittenGrows(disk, front, n, id);
      assert front[..n] == writes[..n];
    }
  }

  lemma {:induction false} PrefixUndisturbed(disk: seq<Entry>, writes: seq<Write>, n: nat)
    requires n <= |writes| && Undisturbed(disk, writes)
    ensures Undisturbed(disk, writes[..n])
    decreases |writes|
  {
    if n == |writes| {
      assert writes[..n] == writes;
    } else {
      FewerIds(disk, writes);
      var front := writes[..|writes| - 1];
      PrefixUndisturbed(disk, front, n);
      assert front[..n] == writes[..n];
    }
  }

  /** A chain once on disk is only ever replaced by one at least as deep and as fresh. */
  lemma DiskNeverDecreases(disk: seq<Entry>, writes: seq<Write>, n: nat, id: Id)
    requires n <= |writes| && Undisturbed(disk, writes) && OnDisk(RunWrites(disk, writes[..n]), id).Some?
    ensures OnDisk(RunWrites(disk, writes), id).Some?
    ensures AtLeast(OnDisk(RunWrites(disk, writes), id).value, OnDisk(RunWrites(disk, writes[..n]), id).value)
  {
    hide RunWrites, OnDisk, AtLeast;
    PrefixUndisturbed(disk, writes, n);
    DiskIsJoin(disk, writes[..n], id);
    DiskIsJoin(disk, writes, id);
    WrittenGrows(disk, writes, n, id);
  }

  /** Two orders of the same writes leave chains of equal depth and freshness. */
  lemma OrderDoesNotMatter(disk: seq<Entry>, a: seq<Write>, b: seq<Write>, id: Id)
    requires Undisturbed(disk, a) && Undisturbed(disk, b) && Written(disk, a, id) == Written(disk, b, id)
    ensures var x, y := OnDisk(RunWrites(disk, a), id), OnDisk(RunWrites(disk, b), id);
      x.Some? == y.Some? && (x.Some? ==> x.value.depth == y.value.depth && x.value.lastSeen == y.value.lastSeen)
  {
    hide RunWrites, OnDisk, Written;
    DiskIsJoin(disk, a, id);
    DiskIsJoin(disk, b, id);
  }

  // ---- when the file could not be read ----

  /** The chain of the id is still there, and no shallower or staler. */
  predicate NotLowered(before: seq<Entry>, after: seq<Entry>, id: Id) {
    OnDisk(before, id).Some? ==> OnDisk(after, id).Some? && AtLeast(OnDisk(after, id).value, OnDisk(before, id).value)
  }

  /** For every chain that counts on disk the process holds one of the same id at least as good. */
  predicate Covers(mine: seq<Entry>, disk: seq<Entry>) {
    forall d :: d in FromDisk(disk) ==> exists m :: m in mine && m.id == d.id && AtLeast(m, d)
  }

  lemma GetMeans(list: seq<Entry>, e: Entry)
    requires Distinct(list)
    ensures e in list <==> Get(list, e.id) == Some(e)
  {
    if e in list {
      var i :| 0 <= i < |list| && list[i] == e;
      FindIs(list, e.id, i);
    }
  }

  lemma GetIsIn(list: seq<Entry>, id: Id)
    ensures Get(list, id).Some? ==> Get(list, id).value in list && Get(list, id).value.id == id
  {
  }

  /**
   * A write that could not read the file replaces it, so under the cap it lowers no chain exactly when the process
   * itself holds one at least as good for every id on disk.
   */
  lemma FailedReadKeeps(disk: seq<Entry>, mine: seq<Entry>)
    requires Distinct(mine) && |mine| <= MAX_TRACKED_SESSIONS
    ensures (forall id :: NotLowered(disk, DiskAfter(disk, Write(mine, false)), id)) <==> Covers(mine, disk)
  {
    hide Get, Distinct, FromDisk, AtLeast;
    var after := DiskAfter(disk, Write(mine, false));
    FromDistinct(mine);
    assert after == mine;
    if forall id :: NotLowered(disk, after, id) {
      forall d | d in FromDisk(disk) ensures exists m :: m in mine && m.id == d.id && AtLeast(m, d) {
        GetMeans(FromDisk(disk), d);
        assert NotLowered(disk, after, d.id);
        GetIsIn(mine, d.id);
        assert OnDisk(after, d.id).value in mine;
      }
    }
    if Covers(mine, disk) {
      forall id ensures NotLowered(disk, after, id) {
        GetIsIn(FromDisk(disk), id);
        if OnDisk(disk, id).Some? {
          var m :| m in mine && m.id == id && AtLeast(m, OnDisk(disk, id).value);
          GetMeans(mine, m);
        }
      }
    }
  }

  /** An empty snapshot loses whatever was there. */
  lemma FailedReadLoses(e: Entry)
    ensures OnDisk([e], e.id) == Some(e) && !NotLowered([e], RunWrites([e], [Write([], false)]), e.id)
  {
    FromDistinct([e]);
    var w := Write([], false);
    assert [w][..0] == [];
    assert RunWrites([e], [w]) == DiskAfter([e], w) == [];
  }
}

/** The debounce in front of the writes: quiet for half a second, or at most five seconds late. */
module PersistTimer {
  import opened Texts
  import opened Persist

  /**
   * pendingSince is the program's own note of the first unsaved change; firstUnsaved and lastChange are the
   * changes themselves.
   */
  datatype Clock = Clock(now: nat, timer: Option<nat>, pendingSince: Option<nat>, firstUnsaved: Option<nat>,
                         lastChange: nat)

  const Idle := Clock(0, None, None, None, 0)

  function Clip(budget: int): nat {
    if budget < 0 then 0 else if budget < PERSIST_DEBOUNCE_MS then budget else PERSIST_DEBOUNCE_MS
  }

  /** A change of the affinity chains, and scheduleAffinityPersist right after it. */
  function Change(c: Clock): Clock {
    var since := if c.pendingSince.Some? then c.pendingSince.value else c.now;
    var due := c.now + Clip(PERSIST_MAX_DELAY_MS - (c.now - since));
    Clock(c.now, Some(due), Some(since), if c.firstUnsaved.Some? then c.firstUnsaved else Some(c.now), c.now)
  }

  /** The timer fires, or a flush runs: the snapshot is written. */
  function Save(c: Clock): Clock {
    Clock(c.now, None, None, None, c.lastChange)
  }

  datatype Event = Passes(ms: nat) | Changes | TimerFires | Flushes

  /** Timers are timely: time does not run past a pending one. */
  function Apply(c: Clock, e: Event): Clock {
    match e
    case Passes(ms) => if c.timer.Some? && c.now + ms > c.timer.value then c else c.(now := c.now + ms)
    case Changes => Change(c)
    case TimerFires => if c.timer.Some? && c.now >= c.timer.value then Save(c) else c
    case Flushes => Save(c)
  }

  function Run(events: seq<Event>): Clock {
    if events == [] then Idle else Apply(Run(events[..|events| - 1]), events[|events| - 1])
  }

  /** While anything is unsaved a timer is pending, due in time for the last and for the first change. */
  predicate InTime(c: Clock) {
    && c.pendingSince == c.firstUnsaved && (c.firstUnsaved.Some? <==> c.timer.Some?)
    && c.lastChange <= c.now
    && (c.timer.Some? ==>
        && c.now <= c.timer.value <= c.lastChange + PERSIST_DEBOUNCE_MS
        && c.timer.value <= c.firstUnsaved.value + PERSIST_MAX_DELAY_MS
        && c.firstUnsaved.value <= c.lastChange)
  }

  lemma {:induction false} RunInTime(events: seq<Event>)
    ensures InTime(Run(events))
  {
    if events != [] {
      RunInTime(events[..|events| - 1]);
    }
  }

  /** An unsaved change is never older than five seconds, and never followed by more than half a second of quiet. */
  lemma NothingStaysUnsaved(events: seq<Event>)
    requires Run(events).firstUnsaved.Some?
    ensures Run(events).now <= Run(events).lastChange + PERSIST_DEBOUNCE_MS
    ensures Run(events).now <= Run(events).firstUnsaved.value + PERSIST_MAX_DELAY_MS
    ensures Run(events).timer.Some? && Run(events).timer.value >= Run(events).now
  {
    hide Run;
    RunInTime(events);
  }

  /** The event writes the snapshot. */
  predicate Saves(c: Clock, e: Event) {
    e.Flushes? || (e.TimerFires? && c.timer.Some? && c.now >= c.timer.value)
  }

  predicate SavedAfter(events: seq<Event>, i: nat) {
    exists k :: i < k < |events| && Saves(Run(events[..k]), events[k])
  }

  predicate LastChange(events: seq<Event>, i: nat) {
    forall k :: i < k < |events| ==> !events[k].Changes?
  }

  lemma RunLast(events: seq<Event>)
    requires events != []
    ensures Run(events) == Apply(Run(events[..|events| - 1]), events[|events| - 1])
  {
  }

  /** A change that nothing has written yet is at least as old as the first unsaved one, and moves the last one. */
  lemma {:induction false} StaysUnsaved(events: seq<Event>, i: nat)
    requires i < |events| && events[i].Changes? && !SavedAfter(events, i)
    ensures Run(events).firstUnsaved.Some? && Run(events).firstUnsaved.value <= Run(events[..i]).now
    ensures LastChange(events, i) ==> Run(events).lastChange == Run(events[..i]).now
    decreases |events|
  {
    hide Run;
    var n := |events| - 1;
    var front := events[..n];
    RunLast(events);
    if i == n {
      RunInTime(front);
    } else {
      assert front[..i] == events[..i];
      assert forall k :: 0 <= k < n ==> front[..k] == events[..k] && front[k] == events[k];
      StaysUnsaved(front, i);
      assert !Saves(Run(front), events[n]);
    }
  }

  /** Every change is written at the latest five seconds after it, and half a second after it when none follows. */
  lemma ChangesAreWritten(events: seq<Event>, i: nat)
    requires i < |events| && events[i].Changes?
    ensures Run(events).now > Run(events[..i]).now + PERSIST_MAX_DELAY_MS ==> SavedAfter(events, i)
    ensures LastChange(events, i) && Run(events).now > Run(events[..i]).now + PERSIST_DEBOUNCE_MS ==>
              SavedAfter(events, i)
  {
    hide Run, SavedAfter;
    if !SavedAfter(events, i) {
      StaysUnsaved(events, i);
      NothingStaysUnsaved(events);
    }
  }

  /** One process's side: its debounce state, and the file it shares. */
  class AffinityPersister {
    var now: nat
    var timer: Option<nat>
    var pendingSince: Option<nat>
    var writing: bool
    var disk: seq<Entry>

    constructor (file: seq<Entry>)
      ensures now == 0 && timer == None && pendingSince == None && !writing && disk == file
    {
      now, timer, pendingSince, writing, disk := 0, None, None, false, file;
    }

    method ScheduleAffinityPersist()
      modifies this`timer, this`pendingSince
      ensures forall c: Clock :: c.now == now && c.timer == old(timer) && c.pendingSince == old(pendingSince) ==>
        timer == Change(c).timer && pendingSince == Change(c).pendingSince
    {
      if pendingSince.None? {
        pendingSince := Some(now);
      }
      var budget := PERSIST_MAX_DELAY_MS - (now - pendingSince.value);
      timer := Some(now + Clip(budget));
    }

    method WriteSnapshot(mine: seq<Entry>, readOk: bool)
      modifies this`writing, this`disk, this`pendingSince
      ensures old(writing) ==> writing && disk == old(disk) && pendingSince == old(pendingSince)
      ensures !old(writing) ==>
        !writing && disk == DiskAfter(old(disk), Write(mine, readOk)) && pendingSince == None
    {
      if writing {
        return;
      }
      writing := true;
      var entries := mine;
      if readOk {
        var forks: nat;
        entries, forks := MergeWithDisk(mine, disk);
      }
      disk := Normalize(entries);
      writing := false;
      pendingSince := None;
    }

    method FlushPrefixAffinity(mine: seq<Entry>, readOk: bool)
      modifies this`timer, this`writing, this`disk, this`pendingSince
      ensures timer == None
      ensures !old(writing) ==> disk == DiskAfter(old(disk), Write(mine, readOk)) && pendingSince == None
    {
      timer := None;
      WriteSnapshot(mine, readOk);
    }
  }
}
