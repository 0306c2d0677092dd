/** Pairing outgoing request dumps with incoming ones by time: two pointers find as many pairs as possible. */
module DumpPairing {
  import opened Texts
  import opened Seqs

  const PAIR_TOL_MS := 2000

  /** Times in file order, after sorting. */
  predicate Sorted(ts: seq<int>) {
    forall i, j :: 0 <= i < j < |ts| ==> ts[i] <= ts[j]
  }

  predicate Close(out: int, inc: int) {
    out - 2000 <= inc <= out + 2000
  }

  /** The most pairs any pairing that keeps both orders can make. */
  function Best(outs: seq<int>, incs: seq<int>): nat
    decreases |outs| + |incs|
  {
    if outs == [] || incs == [] then 0
    else
      var without := Max(Best(outs[1..], incs), Best(outs, incs[1..]));
      if Close(outs[0], incs[0]) then Max(without, 1 + Best(outs[1..], incs[1..])) else without
  }

  function Max(a: nat, b: nat): nat {
    if a < b then b else a
  }

  /** The two-pointer walk on what is left of both lists: the incoming dump each outgoing one gets. */
  function Walk(outs: seq<int>, incs: seq<int>, j: nat): (r: seq<Option<nat>>)
    ensures |r| == |outs|
    decreases |outs| + |incs|
  {
    if outs == [] then []
    else if incs != [] && incs[0] < outs[0] - PAIR_TOL_MS then Walk(outs, incs[1..], j + 1)
    else if incs != [] && incs[0] <= outs[0] + PAIR_TOL_MS then [Some(j)] + Walk(outs[1..], incs[1..], j + 1)
    else [None] + Walk(outs[1..], incs, j)
  }

  function Pairs(mates: seq<Option<nat>>): (n: nat)
    ensures n <= |mates|
  {
    if mates == [] then 0 else (if mates[0].Some? then 1 else 0) + Pairs(mates[1..])
  }

  lemma {:induction false} NoIncoming(outs: seq<int>, j: nat)
    ensures Pairs(Walk(outs, [], j)) == 0 && Best(outs, []) == 0
  {
    if outs != [] {
      NoIncoming(outs[1..], j);
    }
  }

  /** One dump more or less on either side changes the best by at most one. */
  lemma {:induction false} OneLess(outs: seq<int>, incs: seq<int>)
    ensures outs != [] ==> Best(outs[1..], incs) <= Best(outs, incs) <= 1 + Best(outs[1..], incs)
    ensures incs != [] ==> Best(outs, incs[1..]) <= Best(outs, incs) <= 1 + Best(outs, incs[1..])
    decreases |outs| + |incs|
  {
    if outs != [] && incs != [] {
      OneLess(outs[1..], incs);
      OneLess(outs, incs[1..]);
      OneLess(outs[1..], incs[1..]);
    }
  }

  /** An incoming dump too early for the first outgoing one is too early for all. */
  lemma {:induction false} TooEarly(outs: seq<int>, incs: seq<int>)
    requires incs != [] && forall k :: 0 <= k < |outs| ==> incs[0] < outs[k] - PAIR_TOL_MS
    ensures Best(outs, incs) == Best(outs, incs[1..])
    decreases |outs|
  {
    OneLess(outs, incs);
    if outs != [] {
      TooEarly(outs[1..], incs);
      OneLess(outs, incs[1..]);
    }
  }

  /** An outgoing dump too early for the first incoming one is too early for all. */
  lemma {:induction false} TooLate(outs: seq<int>, incs: seq<int>)
    requires outs != [] && forall k :: 0 <= k < |incs| ==> incs[k] > outs[0] + PAIR_TOL_MS
    ensures Best(outs, incs) == Best(outs[1..], incs)
    decreases |incs|
  {
    OneLess(outs, incs);
    if incs != [] {
      TooLate(outs, incs[1..]);
      OneLess(outs[1..], incs);
    }
  }

  /** On sorted times the walk makes as many pairs as the best pairing. */
  lemma {:induction false} WalkIsBest(outs: seq<int>, incs: seq<int>, j: nat)
    requires Sorted(outs) && Sorted(incs)
    ensures Pairs(Walk(outs, incs, j)) == Best(outs, incs)
    decreases |outs| + |incs|
  {
    if outs == [] {
    } else if incs == [] {
      NoIncoming(outs, j);
    } else if incs[0] < outs[0] - PAIR_TOL_MS {
      TooEarly(outs, incs);
      WalkIsBest(outs, incs[1..], j + 1);
    } else if incs[0] <= outs[0] + PAIR_TOL_MS {
      WalkIsBest(outs[1..], incs[1..], j + 1);
      OneLess(outs[1..], incs);
      OneLess(outs, incs[1..]);
      assert ([Some(j)] + Walk(outs[1..], incs[1..], j + 1))[1..] == Walk(outs[1..], incs[1..], j + 1);
    } else {
      TooLate(outs, incs);
      WalkIsBest(outs[1..], incs, j);
      assert ([None] + Walk(outs[1..], incs, j))[1..] == Walk(outs[1..], incs, j);
    }
  }

  ghost predicate CloseMates(outs: seq<int>, incs: seq<int>, mates: seq<Option<nat>>)
    requires |mates| == |outs|
  {
    forall i :: 0 <= i < |outs| && mates[i].Some? ==> mates[i].value < |incs| && Close(outs[i], incs[mates[i].value])
  }

  ghost predicate InOrder(mates: seq<Option<nat>>) {
    forall i, k :: 0 <= i < k < |mates| && mates[i].Some? && mates[k].Some? ==> mates[i].value < mates[k].value
  }

  /** A pairing: close in time, and in the same order on both sides, so no incoming dump is used twice. */
  ghost predicate GoodPairing(outs: seq<int>, incs: seq<int>, mates: seq<Option<nat>>) {
    |mates| == |outs| && CloseMates(outs, incs, mates) && InOrder(mates)
  }

  function Earlier(mates: seq<Option<nat>>): (r: seq<Option<nat>>)
    requires forall i :: 0 <= i < |mates| && mates[i].Some? ==> mates[i].value > 0
    ensures |r| == |mates| && Pairs(r) == Pairs(mates)
    ensures forall i :: 0 <= i < |r| ==> r[i] == if mates[i].Some? then Some(mates[i].value - 1) else None
  {
    if mates == [] then [] else [if mates[0].Some? then Some(mates[0].value - 1) else None] + Earlier(mates[1..])
  }

  /** Without the first outgoing dump. */
  lemma WithoutFirst(outs: seq<int>, incs: seq<int>, mates: seq<Option<nat>>)
    requires outs != [] && GoodPairing(outs, incs, mates)
    ensures GoodPairing(outs[1..], incs, mates[1..])
  {
    hide Close;
    var rest, more := outs[1..], mates[1..];
    assert forall i :: 0 <= i < |rest| ==> rest[i] == outs[i + 1] && more[i] == mates[i + 1];
  }

  /** A mate of the first one lets only later incoming dumps mate with the others. */
  lemma OthersMateLater(outs: seq<int>, incs: seq<int>, mates: seq<Option<nat>>)
    requires outs != [] && GoodPairing(outs, incs, mates) && mates[0].Some?
    ensures incs != [] && Close(outs[0], incs[mates[0].value])
    ensures forall i :: 1 <= i < |mates| && mates[i].Some? ==> mates[i].value > 0
  {
    hide Close;
  }

  predicate NeverFirst(mates: seq<Option<nat>>) {
    forall i :: 0 <= i < |mates| && mates[i].Some? ==> mates[i].value > 0
  }

  /** Without the first incoming dump, where it is unused. */
  lemma WithoutUnused(outs: seq<int>, incs: seq<int>, mates: seq<Option<nat>>)
    requires incs != [] && GoodPairing(outs, incs, mates) && NeverFirst(mates)
    ensures GoodPairing(outs, incs[1..], Earlier(mates))
  {
    EarlierClose(outs, incs, mates);
    EarlierInOrder(mates);
  }

  lemma EarlierInOrder(mates: seq<Option<nat>>)
    requires InOrder(mates) && NeverFirst(mates)
    ensures InOrder(Earlier(mates))
  {
  }

  lemma EarlierClose(outs: seq<int>, incs: seq<int>, mates: seq<Option<nat>>)
    requires |mates| == |outs| && incs != [] && CloseMates(outs, incs, mates) && NeverFirst(mates)
    ensures CloseMates(outs, incs[1..], Earlier(mates))
  {
    hide Close;
    var late, rest := Earlier(mates), incs[1..];
    forall i | 0 <= i < |outs| && late[i].Some? ensures late[i].value < |rest| && Close(outs[i], rest[late[i].value]) {
      assert late[i].value + 1 == mates[i].value;
      assert rest[late[i].value] == incs[mates[i].value];
    }
  }

  /** A pairing without the first outgoing dump, and without the first incoming one where it is unused. */
  lemma Without(outs: seq<int>, incs: seq<int>, mates: seq<Option<nat>>)
    requires outs != [] && GoodPairing(outs, incs, mates)
    ensures mates != [] && (mates[0].Some? ==> incs != [])
    ensures mates[0].None? ==> GoodPairing(outs[1..], incs, mates[1..])
    ensures mates[0].Some? ==> forall i :: 1 <= i < |mates| && mates[i].Some? ==> mates[i].value > 0
    ensures mates[0] == Some(0) ==>
      Close(outs[0], incs[0]) && GoodPairing(outs[1..], incs[1..], Earlier(mates[1..]))
    ensures mates[0].Some? && mates[0].value > 0 ==> GoodPairing(outs, incs[1..], Earlier(mates))
  {
    assert |mates| == |outs|;
    hide GoodPairing, Close;
    WithoutFirst(outs, incs, mates);
    if mates[0].Some? {
      OthersMateLater(outs, incs, mates);
      if mates[0].value == 0 {
        WithoutUnused(outs[1..], incs, mates[1..]);
      } else {
        WithoutUnused(outs, incs, mates);
      }
    }
  }

  /** No pairing whatsoever makes more pairs than the best. */
  lemma {:induction false} NoPairingBeatsBest(outs: seq<int>, incs: seq<int>, mates: seq<Option<nat>>)
    requires GoodPairing(outs, incs, mates)
    ensures Pairs(mates) <= Best(outs, incs)
    decreases |outs| + |incs|
  {
    if outs == [] {
      assert mates == [];
    } else {
      hide GoodPairing, Close;
      Without(outs, incs, mates);
      OneLess(outs, incs);
      if mates[0].None? {
        NoPairingBeatsBest(outs[1..], incs, mates[1..]);
      } else if mates[0].value == 0 {
        NoPairingBeatsBest(outs[1..], incs[1..], Earlier(mates[1..]));
      } else {
        NoPairingBeatsBest(outs, incs[1..], Earlier(mates));
      }
    }
  }

  lemma WalkSkips(outs: seq<int>, incs: seq<int>, i: nat, j: nat)
    requires i < |outs| && j < |incs| && incs[j] < outs[i] - PAIR_TOL_MS
    ensures Walk(outs[i..], incs[j..], j) == Walk(outs[i..], incs[j + 1..], j + 1)
  {
    assert incs[j..][1..] == incs[j + 1..];
  }

  lemma WalkMates(outs: seq<int>, incs: seq<int>, i: nat, j: nat)
    requires i < |outs| && j <= |incs| && (j < |incs| ==> incs[j] >= outs[i] - PAIR_TOL_MS)
    ensures Walk(outs[i..], incs[j..], j) ==
      if j < |incs| && incs[j] <= outs[i] + PAIR_TOL_MS then [Some(j)] + Walk(outs[i + 1..], incs[j + 1..], j + 1)
      else [None] + Walk(outs[i + 1..], incs[j..], j)
  {
    assert outs[i..][1..] == outs[i + 1..];
    if j < |incs| {
      assert incs[j..][1..] == incs[j + 1..];
    }
  }

  lemma WalkEnds(incs: seq<int>, j: nat)
    ensures Walk([], incs, j) == []
  {
  }

  predicate MatedBelow(mates: seq<Option<nat>>, j: nat) {
    forall k :: 0 <= k < |mates| && mates[k].Some? ==> mates[k].value < j
  }

  lemma MatedOnce(mates: seq<Option<nat>>, mate: Option<nat>, j: nat)
    requires MatedBelow(mates, j) && (mate.Some? ==> mate.value == j)
    ensures MatedBelow(mates + [mate], if mate.Some? then j + 1 else j)
  {
  }

  lemma MatedHigher(mates: seq<Option<nat>>, j: nat)
    requires MatedBelow(mates, j)
    ensures MatedBelow(mates, j + 1)
  {
  }

  /** The pairing loop of one session's report. */
  method PairDumps(outs: seq<int>, incs: seq<int>) returns (mates: seq<Option<nat>>, unpaired: nat)
    requires Sorted(outs) && Sorted(incs)
    ensures GoodPairing(outs, incs, mates)
    ensures Pairs(mates) == Best(outs, incs)
    ensures unpaired + Pairs(mates) == |incs|
  {
    hide Walk, Best, GoodPairing, Pairs, MatedBelow;
    mates, unpaired := [], 0;
    var j := 0;
    assert outs[0..] == outs && incs[0..] == incs;
    NoneYet(incs);
    for i := 0 to |outs|
      invariant 0 <= j <= |incs| && |mates| == i
      invariant mates + Walk(outs[i..], incs[j..], j) == Walk(outs, incs, 0)
      invariant GoodPairing(outs[..i], incs, mates) && MatedBelow(mates, j)
      invariant unpaired + Pairs(mates) == j
    {
      while j < |incs| && incs[j] < outs[i] - PAIR_TOL_MS
        invariant 0 <= j <= |incs|
        invariant mates + Walk(outs[i..], incs[j..], j) == Walk(outs, incs, 0)
        invariant MatedBelow(mates, j)
        invariant unpaired + Pairs(mates) == j
      {
        WalkSkips(outs, incs, i, j);
        MatedHigher(mates, j);
        j, unpaired := j + 1, unpaired + 1;
      }
      WalkMates(outs, incs, i, j);
      var mate: Option<nat> := None;
      ghost var rest := Walk(outs[i + 1..], incs[j..], j);
      if j < |incs| && incs[j] <= outs[i] + PAIR_TOL_MS {
        mate := Some(j);
        rest := Walk(outs[i + 1..], incs[j + 1..], j + 1);
      }
      OneMorePair(mates, mate);
      Longer(outs, incs, mates, mate, i, j);
      MatedOnce(mates, mate, j);
      Associate(mates, [mate], rest);
      if mate.Some? {
        j := j + 1;
      }
      mates := mates + [mate];
    }
    unpaired := unpaired + (|incs| - j);
    assert outs[..|outs|] == outs && outs[|outs|..] == [];
    WalkEnds(incs[j..], j);
    assert mates == mates + [] == Walk(outs, incs, 0);
    WalkIsBest(outs, incs, 0);
  }

  lemma NoneYet(incs: seq<int>)
    ensures GoodPairing([], incs, []) && Pairs([]) == 0 && MatedBelow([], 0)
  {
  }

  lemma Longer(outs: seq<int>, incs: seq<int>, mates: seq<Option<nat>>, mate: Option<nat>, i: nat, j: nat)
    requires i < |outs| && GoodPairing(outs[..i], incs, mates) && MatedBelow(mates, j)
    requires mate.Some? ==> mate.value == j < |incs| && Close(outs[i], incs[j])
    ensures GoodPairing(outs[..i + 1], incs, mates + [mate])
  {
  }

  lemma {:induction false} OneMorePair(mates: seq<Option<nat>>, mate: Option<nat>)
    ensures Pairs(mates + [mate]) == Pairs(mates) + (if mate.Some? then 1 else 0)
  {
    if mates == [] {
      assert (mates + [mate])[1..] == [];
    } else {
      assert (mates + [mate])[1..] == mates[1..] + [mate];
      OneMorePair(mates[1..], mate);
    }
  }
}
