/** What one merge and one debounce do, told without their own operations. */
module PersistMerge {
  import opened Texts
  import opened Persist

  // ---- one merge ----

  /** The position of the last entry of an id. */
  predicate LastOf(list: seq<Entry>, id: Id, i: nat) {
    i < |list| && list[i].id == id && forall j :: i < j < |list| ==> list[j].id != id
  }

  /** Of several entries with one id in the file, the last one counts. */
  lemma {:induction false} LastOnDisk(disk: seq<Entry>, id: Id, i: nat)
    requires LastOf(disk, id, i)
    ensures Get(FromDisk(disk), id) == Some(disk[i])
  {
    var n := |disk| - 1;
    GetPut(FromDisk(disk[..n]), disk[n], id);
    if i < n {
      assert forall j :: 0 <= j < n ==> disk[..n][j] == disk[j];
      LastOnDisk(disk[..n], id, i);
    }
  }

  lemma {:induction false} NoneOnDisk(disk: seq<Entry>, id: Id)
    requires forall i :: 0 <= i < |disk| ==> disk[i].id != id
    ensures Get(FromDisk(disk), id) == None
  {
    if disk != [] {
      var n := |disk| - 1;
      NoneOnDisk(disk[..n], id);
      GetPut(FromDisk(disk[..n]), disk[n], id);
    }
  }

  /** The process's chain wins when it is deeper, or as deep and seen no earlier. */
  function Chosen(m: Entry, d: Entry): Entry {
    if m.depth > d.depth then m
    else if m.depth < d.depth then d
    else if m.lastSeen >= d.lastSeen then m
    else d
  }

  lemma {:induction false} OthersStay(mine: seq<Entry>, disk: seq<Entry>, id: Id)
    requires forall i :: 0 <= i < |mine| ==> mine[i].id != id
    ensures Get(Merged(mine, disk), id) == Get(FromDisk(disk), id)
  {
    if mine != [] {
      hide Get, Put, Better;
      var n := |mine| - 1;
      OthersStay(mine[..n], disk, id);
      AddLooks(Merged(mine[..n], disk), mine[n], id);
    }
  }

  lemma AddLooks(byId: seq<Entry>, m: Entry, id: Id)
    requires Distinct(byId)
    ensures Get(AddMine(byId, m), id) ==
      if id != m.id then Get(byId, id)
      else if Get(byId, id).Some? then Some(Chosen(m, Get(byId, id).value)) else Some(m)
  {
    var d := Get(byId, m.id);
    var e := if d.Some? then Better(m, d.value) else m;
    if d.Some? {
      assert d.value.id == m.id;
    }
    GetPut(byId, e, id);
  }

  /** What a merge leaves under each id: the chosen one of mine and the file's, or the only one, and nothing else. */
  lemma {:induction false} MergeChooses(mine: seq<Entry>, disk: seq<Entry>, i: nat)
    requires Distinct(mine) && i < |mine|
    ensures Get(Merged(mine, disk), mine[i].id) ==
      if Get(FromDisk(disk), mine[i].id).Some? then Some(Chosen(mine[i], Get(FromDisk(disk), mine[i].id).value))
      else Some(mine[i])
  {
    hide Get, Put, Better;
    var n := |mine| - 1;
    AddLooks(Merged(mine[..n], disk), mine[n], mine[i].id);
    if i < n {
      MergeChooses(mine[..n], disk, i);
    } else {
      OthersStay(mine[..n], disk, mine[n].id);
    }
  }

  /** The file holds the chain's id at the same depth with another tail. */
  predicate IsFork(m: Entry, disk: seq<Entry>) {
    var d := Get(FromDisk(disk), m.id);
    d.Some? && d.value.depth == m.depth && d.value.tail != m.tail
  }

  ghost function Forked(mine: seq<Entry>, disk: seq<Entry>): set<nat> {
    set i: nat | i < |mine| && IsFork(mine[i], disk)
  }

  lemma ForkedLast(mine: seq<Entry>, disk: seq<Entry>)
    requires mine != []
    ensures var n := |mine| - 1;
      |Forked(mine, disk)| == |Forked(mine[..n], disk)| + if IsFork(mine[n], disk) then 1 else 0
  {
    hide IsFork;
    var n := |mine| - 1;
    var before, all := Forked(mine[..n], disk), Forked(mine, disk);
    if IsFork(mine[n], disk) {
      assert all == before + {n} && n !in before;
    } else {
      assert all == before;
    }
  }

  lemma ForksLast(mine: seq<Entry>, disk: seq<Entry>)
    requires mine != [] && Distinct(mine)
    ensures var n := |mine| - 1;
      Forks(mine, disk) == Forks(mine[..n], disk) + if IsFork(mine[n], disk) then 1 else 0
  {
    hide Get, Merged;
    var n := |mine| - 1;
    OthersStay(mine[..n], disk, mine[n].id);
  }

  /** The forks a merge reports are the process's chains that fork from the file's. */
  lemma {:induction false} ForksAreCounted(mine: seq<Entry>, disk: seq<Entry>)
    requires Distinct(mine)
    ensures Forks(mine, disk) == |Forked(mine, disk)|
  {
    hide IsFork;
    if mine != [] {
      hide Forks, Forked;
      ForksAreCounted(mine[..|mine| - 1], disk);
      ForkedLast(mine, disk);
      ForksLast(mine, disk);
    } else {
      assert Forked(mine, disk) == {};
    }
  }

  // ---- the order of the file ----

  function IdList(list: seq<Entry>): seq<Id> {
    if list == [] then [] else IdList(list[..|list| - 1]) + [list[|list| - 1].id]
  }

  lemma {:induction false} IdsAt(list: seq<Entry>)
    ensures |IdList(list)| == |list| && forall i :: 0 <= i < |list| ==> IdList(list)[i] == list[i].id
  {
    if list != [] {
      IdsAt(list[..|list| - 1]);
    }
  }

  /** Setting a key that is there keeps the order, a new one goes last. */
  lemma PutOrder(list: seq<Entry>, e: Entry)
    requires Distinct(list)
    ensures IdList(Put(list, e)) == IdList(list) + if e.id in IdList(list) then [] else [e.id]
  {
    var r := Put(list, e);
    IdsAt(list);
    IdsAt(r);
    if Find(list, e.id) < |list| {
      assert IdList(list)[Find(list, e.id)] == e.id;
      assert IdList(r) == IdList(list) + [];
    } else {
      assert IdList(r) == IdList(list) + [e.id];
    }
  }

  /** The ids of a list, each where it comes first, behind those of another. */
  function Fresh(list: seq<Entry>, known: seq<Id>): seq<Id> {
    if list == [] then known
    else
      var before := Fresh(list[..|list| - 1], known);
      before + if list[|list| - 1].id in before then [] else [list[|list| - 1].id]
  }

  lemma {:induction false} FileOrder(disk: seq<Entry>)
    ensures IdList(FromDisk(disk)) == Fresh(disk, [])
  {
    if disk != [] {
      hide Put;
      FileOrder(disk[..|disk| - 1]);
      PutOrder(FromDisk(disk[..|disk| - 1]), disk[|disk| - 1]);
    }
  }

  /** A merge keeps the file's order and puts what only the process has behind it, in its own order. */
  lemma {:induction false} MergeOrder(mine: seq<Entry>, disk: seq<Entry>)
    ensures IdList(Merged(mine, disk)) == Fresh(mine, Fresh(disk, []))
  {
    if mine == [] {
      FileOrder(disk);
    } else {
      hide Put, Better;
      var n := |mine| - 1;
      MergeOrder(mine[..n], disk);
      AddOrder(Merged(mine[..n], disk), mine[n]);
    }
  }

  lemma AddOrder(byId: seq<Entry>, m: Entry)
    requires Distinct(byId)
    ensures IdList(AddMine(byId, m)) == IdList(byId) + if m.id in IdList(byId) then [] else [m.id]
  {
    hide Put;
    var d := Get(byId, m.id);
    PutOrder(byId, if d.Some? then Better(m, d.value) else m);
  }

  // ---- the order under the cap ----

  /** The entries last seen at one time, in order. */
  function SeenAt(list: seq<Entry>, time: int): seq<Entry> {
    if list == [] then [] else (if list[0].lastSeen == time then [list[0]] else []) + SeenAt(list[1..], time)
  }

  lemma {:induction false} SeenAtConcat(a: seq<Entry>, b: seq<Entry>, time: int)
    ensures SeenAt(a + b, time) == SeenAt(a, time) + SeenAt(b, time)
  {
    if a == [] {
      assert a + b == b;
    } else {
      assert (a + b)[1..] == a[1..] + b;
      SeenAtConcat(a[1..], b, time);
    }
  }

  lemma {:induction false} InsertBehindEqual(sorted: seq<Entry>, e: Entry, time: int)
    requires Descending(sorted)
    ensures SeenAt(Insert(sorted, e), time) == SeenAt(sorted, time) + if e.lastSeen == time then [e] else []
  {
    if sorted == [] || sorted[0].lastSeen < e.lastSeen {
      assert ([e] + sorted)[1..] == sorted;
      if e.lastSeen == time {
        NoneSeenAt(sorted, time);
      }
    } else {
      InsertBehindEqual(sorted[1..], e, time);
      assert ([sorted[0]] + Insert(sorted[1..], e))[1..] == Insert(sorted[1..], e);
    }
  }

  lemma {:induction false} NoneSeenAt(list: seq<Entry>, time: int)
    requires forall i :: 0 <= i < |list| ==> list[i].lastSeen != time
    ensures SeenAt(list, time) == []
  {
    if list != [] {
      NoneSeenAt(list[1..], time);
    }
  }

  lemma {:induction false} SortedIsStable(list: seq<Entry>, time: int)
    ensures SeenAt(Sorted(list), time) == SeenAt(list, time)
  {
    if list != [] {
      hide Insert, SeenAt, Descending, Sorted;
      var front, last := list[..|list| - 1], list[|list| - 1];
      SortedIsStable(front, time);
      SortedSorts(front);
      SortedLast(list);
      InsertBehindEqual(Sorted(front), last, time);
      assert list == front + [last];
      SeenAtConcat(front, [last], time);
      OneSeenAt(last, time);
    }
  }

  lemma OneSeenAt(e: Entry, time: int)
    ensures SeenAt([e], time) == if e.lastSeen == time then [e] else []
  {
    assert [e][1..] == [];
  }

  /**
   * Over the cap of 1024 the file is sorted, latest seen first, and of those seen at one time the first ones
   * are kept, in their order.
   */
  lemma CapKeepsOrder(entries: seq<Entry>, time: int)
    requires |entries| > 1024
    ensures |Normalize(entries)| == 1024 && Descending(Normalize(entries))
    ensures SeenAt(Normalize(entries), time) <= SeenAt(entries, time)
  {
    SortedSorts(entries);
    SortedIsStable(entries, time);
    var s := Sorted(entries);
    assert s == s[..1024] + s[1024..];
    SeenAtConcat(s[..1024], s[1024..], time);
  }
}

/** When the debounce writes: not before it has been quiet for half a second, unless five seconds are up. */
module PersistDelay {
  import opened Texts
  import opened Persist
  import opened PersistTimer

  /** When the pending write is due: half a second after the last change, but at most five seconds after the first. */
  function DueAt(first: nat, last: nat): nat {
    if last + 500 <= first + 5000 then last + 500 else if first + 5000 >= last then first + 5000 else last
  }

  predicate DueIsRight(c: Clock) {
    && c.pendingSince == c.firstUnsaved && c.lastChange <= c.now
    && match c.firstUnsaved
       case Some(first) => first <= c.lastChange && c.timer == Some(DueAt(first, c.lastChange))
       case None => c.timer == None
  }

  /** While a change is unsaved, exactly one write is due, at that time; otherwise none is. */
  lemma {:induction false} WriteIsDue(events: seq<Event>)
    ensures DueIsRight(Run(events))
  {
    if events != [] {
      WriteIsDue(events[..|events| - 1]);
    }
  }

  /** The first change since the last write, by the events alone. */
  predicate FirstUnsavedBy(events: seq<Event>, i: nat) {
    && i < |events| && events[i].Changes? && !SavedAfter(events, i)
    && forall k :: 0 <= k < i && events[k].Changes? ==> SavedAfter(events, k)
  }

  predicate LastChangeBy(events: seq<Event>, i: nat) {
    i < |events| && events[i].Changes? && LastChange(events, i)
  }

  lemma {:induction false} FirstIsKept(events: seq<Event>, i: nat)
    requires i < |events| && events[i].Changes? && !SavedAfter(events, i) && Run(events[..i]).firstUnsaved.None?
    ensures Run(events).firstUnsaved == Some(Run(events[..i]).now)
    decreases |events|
  {
    hide Run;
    var n := |events| - 1;
    var front := events[..n];
    RunLast(events);
    if i < n {
      assert front[..i] == events[..i];
      assert forall k :: 0 <= k < n ==> front[..k] == events[..k] && front[k] == events[k];
      FirstIsKept(front, i);
      assert !Saves(Run(front), events[n]);
    }
  }

  lemma {:induction false} LastIsKept(events: seq<Event>, i: nat)
    requires LastChangeBy(events, i)
    ensures Run(events).lastChange == Run(events[..i]).now
    decreases |events|
  {
    hide Run;
    var n := |events| - 1;
    var front := events[..n];
    RunLast(events);
    if i < n {
      assert front[..i] == events[..i];
      assert forall k :: 0 <= k < n ==> front[..k] == events[..k] && front[k] == events[k];
      LastIsKept(front, i);
    }
  }

  /** Nothing is unsaved when every change has a write behind it. */
  lemma {:induction false} AllSaved(events: seq<Event>)
    requires forall k :: 0 <= k < |events| && events[k].Changes? ==> SavedAfter(events, k)
    ensures Run(events).firstUnsaved.None?
    decreases |events|
  {
    hide Run;
    if events == [] {
      StartsSaved();
    } else {
      var n := |events| - 1;
      var front := events[..n];
      RunLast(events);
      if Saves(Run(front), events[n]) {
      } else {
        assert forall k :: 0 <= k < n ==> front[..k] == events[..k] && front[k] == events[k];
        LastNotSaved(events);
        forall k | 0 <= k < n && front[k].Changes? ensures SavedAfter(front, k) {
          var m :| k < m < |events| && Saves(Run(events[..m]), events[m]);
          assert m < n && front[..m] == events[..m];
        }
        AllSaved(front);
      }
    }
  }

  lemma LastNotSaved(events: seq<Event>)
    requires events != []
    ensures !SavedAfter(events, |events| - 1)
  {
    hide Run;
  }

  lemma StartsSaved()
    ensures Run([]).firstUnsaved.None?
  {
  }

  /** What was saved before a change was saved by then. */
  lemma SavedByThen(events: seq<Event>, i: nat)
    requires FirstUnsavedBy(events, i)
    ensures Run(events[..i]).firstUnsaved.None?
  {
    hide Run;
    var front := events[..i];
    assert forall k :: 0 <= k < i ==> front[..k] == events[..k] && front[k] == events[k];
    forall k | 0 <= k < i && front[k].Changes? ensures SavedAfter(front, k) {
      var m :| k < m < |events| && Saves(Run(events[..m]), events[m]);
      assert m < i by {
        assert m != i && !(m > i);
      }
      assert Saves(Run(front[..m]), front[m]);
    }
    AllSaved(front);
  }

  /**
   * While changes wait to be written, the write is due half a second after the last of them, but five seconds
   * after the first at most; a timer that fires writes exactly from then on.
   */
  lemma WritesWhenDue(events: seq<Event>, i: nat, j: nat)
    requires FirstUnsavedBy(events, i) && LastChangeBy(events, j)
    ensures var due, c := DueAt(Run(events[..i]).now, Run(events[..j]).now), Run(events);
      c.timer == Some(due) && (Saves(c, TimerFires) <==> c.now >= due)
  {
    hide Run, FirstUnsavedBy, LastChangeBy;
    SavedByThen(events, i);
    UnsavedIs(events, i);
    FirstIsKept(events, i);
    LastIsKept(events, j);
    WriteIsDue(events);
  }

  lemma UnsavedIs(events: seq<Event>, i: nat)
    requires FirstUnsavedBy(events, i)
    ensures i < |events| && events[i].Changes? && !SavedAfter(events, i)
  {
    hide Run;
  }
}
