/** Comparing request bodies byte by byte: common prefixes and insertions in the middle. */
module ByteCompare {

  type Byte = b: int | 0 <= b < 256

  type Bytes = seq<Byte>

  const CHUNK := 65536

  /** The naive walk: how many leading bytes agree. */
  function Lcp(a: Bytes, b: Bytes): nat {
    if a == [] || b == [] || a[0] != b[0] then 0 else 1 + Lcp(a[1..], b[1..])
  }

  lemma {:induction false} LcpIs(a: Bytes, b: Bytes, k: nat)
    requires k <= |a| && k <= |b| && a[..k] == b[..k]
    requires k < |a| && k < |b| ==> a[k] != b[k]
    ensures Lcp(a, b) == k
  {
    if k > 0 {
      assert a[0] == a[..k][0] == b[..k][0] == b[0];
      assert a[1..][..k - 1] == a[..k][1..] == b[..k][1..] == b[1..][..k - 1];
      LcpIs(a[1..], b[1..], k - 1);
    }
  }

  lemma {:induction false} LcpAgrees(a: Bytes, b: Bytes)
    ensures var k := Lcp(a, b);
      k <= |a| && k <= |b| && a[..k] == b[..k] && (k < |a| && k < |b| ==> a[k] != b[k])
  {
    if a != [] && b != [] && a[0] == b[0] {
      LcpAgrees(a[1..], b[1..]);
      var k := Lcp(a[1..], b[1..]);
      assert a[..k + 1] == [a[0]] + a[1..][..k] && b[..k + 1] == [b[0]] + b[1..][..k];
    }
  }

  lemma PrefixGrows(a: Bytes, b: Bytes, k: nat)
    requires k < |a| && k < |b| && a[..k] == b[..k]
    ensures a[..k + 1] == b[..k + 1] <==> a[k] == b[k]
  {
    assert a[..k + 1] == a[..k] + [a[k]] && b[..k + 1] == b[..k] + [b[k]];
  }

  lemma SuffixGrows(a: Bytes, b: Bytes, k: nat)
    requires k < |a| && k < |b| && a[|a| - k..] == b[|b| - k..]
    ensures a[|a| - (k + 1)..] == b[|b| - (k + 1)..] <==> a[|a| - 1 - k] == b[|b| - 1 - k]
  {
    assert a[|a| - (k + 1)..] == [a[|a| - 1 - k]] + a[|a| - k..];
    assert b[|b| - (k + 1)..] == [b[|b| - 1 - k]] + b[|b| - k..];
  }

  /** Equal suffixes have equal shorter suffixes. */
  lemma SuffixesAgree(a: Bytes, b: Bytes, k: nat, m: nat)
    requires k <= m <= |a| && m <= |b|
    ensures a[|a| - m..] == b[|b| - m..] ==> a[|a| - k..] == b[|b| - k..]
  {
    assert a[|a| - k..] == a[|a| - m..][m - k..] && b[|b| - k..] == b[|b| - m..][m - k..];
  }

  function Min(a: nat, b: nat): nat {
    if a < b then a else b
  }

  /** byteLcp: binary search over the length of the equal prefix is the naive walk. */
  method ByteLcp(a: Bytes, b: Bytes) returns (k: nat)
    ensures k == Lcp(a, b)
  {
    var n := Min(|a|, |b|);
    if n == 0 || a[0] != b[0] {
      LcpIs(a, b, 0);
      return 0;
    }
    var lo, hi := 1, n;
    while lo < hi
      invariant 1 <= lo <= hi <= n
      invariant a[..lo] == b[..lo]
      invariant hi < n ==> a[..hi + 1] != b[..hi + 1]
    {
      var mid := (lo + hi + 1) / 2;
      if a[..mid] == b[..mid] {
        lo := mid;
      } else {
        hi := mid - 1;
      }
    }
    if lo < n {
      PrefixGrows(a, b, lo);
    }
    LcpIs(a, b, lo);
    return lo;
  }

  datatype Rel = Append | Diverge

  /** A common prefix extended by a common piece. */
  lemma PrefixExtends(a: Bytes, b: Bytes, from: nat, to: nat)
    requires from <= to <= |a| && to <= |b| && a[..from] == b[..from] && a[from..to] == b[from..to]
    ensures a[..to] == b[..to]
  {
    assert a[..to] == a[..from] + a[from..to];
    assert b[..to] == b[..from] + b[from..to];
  }

  /** prefixCompare: chunk by chunk, then byte by byte inside the first chunk that differs. */
  method PrefixCompare(a: Bytes, b: Bytes) returns (rel: Rel, offset: nat, extra: int)
    ensures rel == Append <==> a <= b
    ensures offset == Lcp(a, b) && extra == |b| - |a|
  {
    var n := Min(|a|, |b|);
    var off := 0;
    while off < n
      invariant off <= n
      invariant a[..off] == b[..off]
    {
      var end := Min(off + CHUNK, n);
      var ca, cb := a[off..end], b[off..end];
      if ca != cb {
        assert ca[..|ca|] == ca && cb[..|cb|] == cb;
        var i := 0;
        while i < |ca|
          invariant i <= |ca| == |cb|
          invariant ca[..i] == cb[..i]
        {
          if ca[i] != cb[i] {
            assert a[off..off + i] == ca[..i] && b[off..off + i] == cb[..i];
            PrefixExtends(a, b, off, off + i);
            assert a[off + i] == ca[i] && b[off + i] == cb[i];
            LcpIs(a, b, off + i);
            return Diverge, off + i, |b| - |a|;
          }
          i := i + 1;
        }
        assert false;
      }
      PrefixExtends(a, b, off, end);
      off := end;
    }
    LcpIs(a, b, n);
    if |b| >= |a| {
      assert a == a[..n];
      return Append, |a|, |b| - |a|;
    }
    return Diverge, n, |b| - |a|;
  }

  /** All of prev past the given prefix is a suffix of the longer cur. */
  predicate MidInsertion(prev: Bytes, cur: Bytes, lcp: nat) {
    |cur| > |prev| > lcp && prev[lcp..] == cur[|cur| - (|prev| - lcp)..]
  }

  /** isMidInsertionAppend of the ledger: binary search over the length of the equal suffix. */
  method IsMidInsertionAppend(prev: Bytes, cur: Bytes, lcp: nat) returns (r: bool)
    ensures r <==> MidInsertion(prev, cur, lcp)
  {
    if |cur| <= |prev| || lcp >= |prev| {
      return false;
    }
    var room := |prev| - lcp;
    var lo, hi := 0, room;
    while lo < hi
      invariant 0 <= lo <= hi <= room
      invariant prev[|prev| - lo..] == cur[|cur| - lo..]
      invariant hi < room ==> prev[|prev| - (hi + 1)..] != cur[|cur| - (hi + 1)..]
    {
      var mid := (lo + hi + 1) / 2;
      if prev[|prev| - mid..] == cur[|cur| - mid..] {
        lo := mid;
      } else {
        hi := mid - 1;
      }
    }
    if lo < room {
      SuffixesAgree(prev, cur, lo + 1, room);
    }
    return lcp + lo == |prev|;
  }

  /** isMidInsertionAppend of the wire comparison: the same test by a linear walk from the end. */
  method IsMidInsertionLinear(prev: Bytes, cur: Bytes, lcp: nat) returns (r: bool)
    ensures r <==> MidInsertion(prev, cur, lcp)
  {
    if |cur| <= |prev| || lcp >= |prev| {
      return false;
    }
    var room := |prev| - lcp;
    var lcs := 0;
    while lcs < room && prev[|prev| - 1 - lcs] == cur[|cur| - 1 - lcs]
      invariant 0 <= lcs <= room
      invariant prev[|prev| - lcs..] == cur[|cur| - lcs..]
    {
      SuffixGrows(prev, cur, lcs);
      lcs := lcs + 1;
    }
    if lcs < room {
      SuffixesAgree(prev, cur, lcs + 1, room);
      SuffixGrows(prev, cur, lcs);
    }
    return lcp + lcs == |prev|;
  }

  /** New bytes put into prev at position k. */
  predicate InsertedAt(prev: Bytes, cur: Bytes, k: nat) {
    && k <= |prev| < |cur|
    && cur == prev[..k] + cur[k..k + (|cur| - |prev|)] + prev[k..]
  }

  /**
   * The test on the true common prefix holds exactly when cur is prev with new bytes inserted somewhere and
   * prev is not a prefix of cur.
   */
  lemma MidInsertionMeans(prev: Bytes, cur: Bytes)
    ensures MidInsertion(prev, cur, Lcp(prev, cur)) <==> !(prev <= cur) && exists k :: InsertedAt(prev, cur, k)
  {
    if prev <= cur {
      assert prev == cur[..|prev|];
      LcpIs(prev, cur, |prev|);
    } else {
      if MidInsertion(prev, cur, Lcp(prev, cur)) {
        PrefixIsInsertionPoint(prev, cur);
      }
      forall k | InsertedAt(prev, cur, k) ensures MidInsertion(prev, cur, Lcp(prev, cur)) {
        InsertionReachesPrefix(prev, cur, k);
      }
    }
  }

  lemma PrefixIsInsertionPoint(prev: Bytes, cur: Bytes)
    requires MidInsertion(prev, cur, Lcp(prev, cur))
    ensures InsertedAt(prev, cur, Lcp(prev, cur))
  {
    hide Lcp;
    var lcp, d := Lcp(prev, cur), |cur| - |prev|;
    LcpAgrees(prev, cur);
    Cuts(cur, lcp, lcp + d);
  }

  lemma Cuts(s: Bytes, i: nat, j: nat)
    requires i <= j <= |s|
    ensures s == s[..i] + s[i..j] + s[j..]
  {
  }

  /** Any insertion point lies within the common prefix, so the rest is a common suffix. */
  lemma InsertionReachesPrefix(prev: Bytes, cur: Bytes, k: nat)
    requires InsertedAt(prev, cur, k) && !(prev <= cur)
    ensures MidInsertion(prev, cur, Lcp(prev, cur))
  {
    var lcp, d := Lcp(prev, cur), |cur| - |prev|;
    LcpAgrees(prev, cur);
    var head, mid, tail := prev[..k], cur[k..k + d], prev[k..];
    assert cur[..k] == head && cur[k + d..] == tail;
    assert forall i :: 0 <= i < k ==> prev[i] == head[i] == cur[i];
    assert prev[..|prev|] == prev && (lcp == |prev| ==> prev <= cur);
    assert cur[lcp + d..] == tail[lcp - k..] == prev[lcp..];
  }
}
