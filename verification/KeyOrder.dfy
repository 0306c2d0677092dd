/** Ordering object keys: the comparator loop of the canonical printer and sorting by it. */
module KeyOrder {
  import opened Texts

  predicate High(c: CodeUnit) {
    0xD800 <= c <= 0xDBFF
  }

  predicate Low(c: CodeUnit) {
    0xDC00 <= c <= 0xDFFF
  }

  /** [...t].map(ch => ch.codePointAt(0)): surrogate pairs combine, lone surrogates stand alone. */
  function CodePoints(t: Text): (r: seq<int>)
    ensures |r| <= |t|
  {
    if t == [] then []
    else if |t| >= 2 && High(t[0]) && Low(t[1]) then
      [0x10000 + (t[0] - 0xD800) * 0x400 + (t[1] - 0xDC00)] + CodePoints(t[2..])
    else [t[0]] + CodePoints(t[1..])
  }

  /** Code points determine the string, lone surrogates included. */
  lemma {:induction false} CodePointsInjective(a: Text, b: Text)
    requires CodePoints(a) == CodePoints(b)
    ensures a == b
  {
    if a == [] || b == [] {
      assert a == [] && b == [];
    } else {
      var ca, cb := CodePoints(a), CodePoints(b);
      var i := if |a| >= 2 && High(a[0]) && Low(a[1]) then 2 else 1;
      var j := if |b| >= 2 && High(b[0]) && Low(b[1]) then 2 else 1;
      assert ca[1..] == CodePoints(a[i..]) && cb[1..] == CodePoints(b[j..]);
      assert ca[0] == cb[0];
      assert i == j;
      CodePointsInjective(a[i..], b[j..]);
      assert a == a[..i] + a[i..] && b == b[..j] + b[j..];
    }
  }

  /** Lexicographic comparison; only the sign matters. */
  function Lex(a: seq<int>, b: seq<int>): int {
    if a == [] || b == [] then |a| - |b|
    else if a[0] != b[0] then a[0] - b[0]
    else Lex(a[1..], b[1..])
  }

  lemma {:induction false} LexZero(a: seq<int>, b: seq<int>)
    ensures Lex(a, b) == 0 <==> a == b
  {
    if a != [] && b != [] && a[0] == b[0] {
      LexZero(a[1..], b[1..]);
      assert a == [a[0]] + a[1..] && b == [b[0]] + b[1..];
    }
  }

  lemma {:induction false} LexFlip(a: seq<int>, b: seq<int>)
    ensures Lex(a, b) == -Lex(b, a)
  {
    if a != [] && b != [] && a[0] == b[0] {
      LexFlip(a[1..], b[1..]);
    }
  }

  lemma {:induction false} LexTransitive(a: seq<int>, b: seq<int>, c: seq<int>)
    requires Lex(a, b) < 0 && Lex(b, c) < 0
    ensures Lex(a, c) < 0
  {
    if a != [] && b != [] && c != [] && a[0] == b[0] == c[0] {
      LexTransitive(a[1..], b[1..], c[1..]);
    }
  }

  /** The comparator of the canonical printer, as a mathematical order. */
  function KeyCompare(a: Text, b: Text): int {
    Lex(CodePoints(a), CodePoints(b))
  }

  lemma KeyCompareZero(a: Text, b: Text)
    ensures KeyCompare(a, b) == 0 <==> a == b
  {
    LexZero(CodePoints(a), CodePoints(b));
    if CodePoints(a) == CodePoints(b) {
      CodePointsInjective(a, b);
    }
  }

  lemma {:induction false} LexSkip(a: seq<int>, b: seq<int>, i: nat)
    requires i <= |a| && i <= |b| && a[..i] == b[..i]
    ensures Lex(a, b) == Lex(a[i..], b[i..])
  {
    if i > 0 {
      assert a[0] == a[..i][0] == b[..i][0] == b[0];
      assert a[1..][..i - 1] == a[..i][1..] && b[1..][..i - 1] == b[..i][1..];
      LexSkip(a[1..], b[1..], i - 1);
      assert a[1..][i - 1..] == a[i..] && b[1..][i - 1..] == b[i..];
    }
  }

  /** jcsKeyCompare: a total order on keys whose zero is equality, computed by an early-exit scan. */
  method JcsKeyCompare(a: Text, b: Text) returns (r: int)
    ensures r == KeyCompare(a, b)
    ensures r == 0 <==> a == b
  {
    var ca, cb := CodePoints(a), CodePoints(b);
    KeyCompareZero(a, b);
    var n := if |ca| <= |cb| then |ca| else |cb|;
    var i := 0;
    while i < n
      invariant 0 <= i <= n
      invariant ca[..i] == cb[..i]
    {
      if ca[i] != cb[i] {
        LexSkip(ca, cb, i);
        return ca[i] - cb[i];
      }
      assert ca[..i + 1] == ca[..i] + [ca[i]] && cb[..i + 1] == cb[..i] + [cb[i]];
      i := i + 1;
    }
    LexSkip(ca, cb, n);
    return |ca| - |cb|;
  }

  // ---- against the order of UTF-16 code units ----

  /** The unit is one half of a surrogate pair. */
  predicate InPair(t: Text, i: nat)
    requires i < |t|
  {
    (High(t[i]) && i + 1 < |t| && Low(t[i + 1])) || (Low(t[i]) && i > 0 && High(t[i - 1]))
  }

  /** How many leading units the two keys share. */
  function Shared(a: Text, b: Text): (i: nat)
    ensures i <= |a| && i <= |b| && a[..i] == b[..i]
    ensures i < |a| && i < |b| ==> a[i] != b[i]
  {
    if a == [] || b == [] || a[0] != b[0] then 0 else 1 + Shared(a[1..], b[1..])
  }

  /** Where the keys part, the smaller unit is half of a surrogate pair and the larger one is not. */
  predicate PairAgainstSingle(a: Text, b: Text) {
    var i := Shared(a, b);
    i < |a| && i < |b| && (if a[i] < b[i] then InPair(a, i) && !InPair(b, i) else InPair(b, i) && !InPair(a, i))
  }

  predicate SameSign(x: int, y: int) {
    (x < 0 <==> y < 0) && (x > 0 <==> y > 0)
  }

  predicate StartsPair(t: Text) {
    |t| >= 2 && High(t[0]) && Low(t[1])
  }

  lemma SharedHead(a: Text, b: Text, k: nat)
    requires k <= |a| && k <= |b| && a[..k] == b[..k]
    ensures Shared(a, b) == k + Shared(a[k..], b[k..])
  {
    if k > 0 {
      assert a[0] == a[..k][0] == b[..k][0] == b[0];
      assert a[1..][..k - 1] == a[..k][1..] && b[1..][..k - 1] == b[..k][1..];
      SharedHead(a[1..], b[1..], k - 1);
      assert a[1..][k - 1..] == a[k..] && b[1..][k - 1..] == b[k..];
    }
  }

  predicate SameStart(a: Text, b: Text, k: nat) {
    && a != [] && b != [] && StartsPair(a) == StartsPair(b) && k == (if StartsPair(a) then 2 else 1)
    && a[..k] == b[..k]
  }

  lemma SameOrder(a: Text, b: Text, k: nat)
    requires SameStart(a, b, k)
    ensures KeyCompare(a, b) == KeyCompare(a[k..], b[k..]) && Lex(a, b) == Lex(a[k..], b[k..])
  {
    assert a[0] == a[..k][0] == b[..k][0] == b[0];
    assert k == 2 ==> a[1] == a[..k][1] == b[..k][1] == b[1];
    LexSkip(a, b, k);
    assert CodePoints(a)[0] == CodePoints(b)[0];
    assert CodePoints(a)[1..] == CodePoints(a[k..]) && CodePoints(b)[1..] == CodePoints(b[k..]);
  }

  lemma SameParting(a: Text, b: Text, k: nat)
    requires SameStart(a, b, k)
    ensures PairAgainstSingle(a, b) <==> PairAgainstSingle(a[k..], b[k..])
  {
    hide Shared, InPair;
    SharedHead(a, b, k);
    PairShift(a, k);
    PairShift(b, k);
  }

  lemma PairShift(t: Text, k: nat)
    requires t != [] && k == (if StartsPair(t) then 2 else 1)
    ensures forall i :: k <= i < |t| ==> (InPair(t, i) <==> InPair(t[k..], i - k))
  {
  }

  /** The keys part at their first code points. */
  lemma FirstCodePoints(a: Text, b: Text)
    requires a != [] && b != []
    requires StartsPair(a) != StartsPair(b) || a[0] != b[0] || (StartsPair(a) && a[1] != b[1])
    ensures SameSign(KeyCompare(a, b), Lex(a, b)) <==> !PairAgainstSingle(a, b)
  {
    if a[0] == b[0] {
      assert a[..1] == [a[0]] && b[..1] == [b[0]];
      SharedHead(a, b, 1);
      LexSkip(a, b, 1);
    }
  }

  /**
   * Code-point order, which the printer uses, and the order of UTF-16 code units of RFC 8785, section 3.2.3, put two
   * keys the same way round exactly unless, where the keys part, the smaller unit is half of a surrogate pair and
   * the larger one is not.
   */
  lemma {:induction false} UnitOrderAgrees(a: Text, b: Text)
    ensures SameSign(KeyCompare(a, b), Lex(a, b)) <==> !PairAgainstSingle(a, b)
  {
    if a != [] && b != [] {
      if StartsPair(a) != StartsPair(b) || a[0] != b[0] || (StartsPair(a) && a[1] != b[1]) {
        FirstCodePoints(a, b);
      } else {
        var k := if StartsPair(a) then 2 else 1;
        assert a[..k] == b[..k];
        hide KeyCompare, PairAgainstSingle, Lex;
        SameOrder(a, b, k);
        SameParting(a, b, k);
        UnitOrderAgrees(a[k..], b[k..]);
      }
    }
  }

  /** U+10000 and U+E000: the printer puts the second first, the standard the first. */
  lemma UnitOrderDiffers()
    ensures KeyCompare([0xD800, 0xDC00], [0xE000]) > 0 && Lex([0xD800, 0xDC00], [0xE000]) < 0
  {
    UnitOrderAgrees([0xD800, 0xDC00], [0xE000]);
  }

  /** Something filed under a key. */
  datatype Keyed<T> = Keyed(key: Text, item: T)

  predicate KeyFree<T>(key: Text, xs: seq<Keyed<T>>) {
    forall i :: 0 <= i < |xs| ==> xs[i].key != key
  }

  predicate KeysDistinct<T>(xs: seq<Keyed<T>>) {
    xs == [] || (KeyFree(xs[0].key, xs[1..]) && KeysDistinct(xs[1..]))
  }

  /** The key ranks strictly before every entry of the list. */
  predicate Below<T>(key: Text, xs: seq<Keyed<T>>, rank: Text -> seq<int>) {
    forall i :: 0 <= i < |xs| ==> Lex(rank(key), rank(xs[i].key)) < 0
  }

  predicate StrictlySorted<T>(xs: seq<Keyed<T>>, rank: Text -> seq<int>) {
    xs == [] || (Below(xs[0].key, xs[1..], rank) && StrictlySorted(xs[1..], rank))
  }

  ghost predicate Injective(rank: Text -> seq<int>) {
    forall a, b :: rank(a) == rank(b) ==> a == b
  }

  function InsertByRank<T>(x: Keyed<T>, xs: seq<Keyed<T>>, rank: Text -> seq<int>): seq<Keyed<T>> {
    if xs == [] then [x]
    else if Lex(rank(x.key), rank(xs[0].key)) <= 0 then [x] + xs
    else [xs[0]] + InsertByRank(x, xs[1..], rank)
  }

  /** Array.prototype.sort with the comparator of `rank` (stable). */
  function SortByRank<T>(xs: seq<Keyed<T>>, rank: Text -> seq<int>): seq<Keyed<T>> {
    if xs == [] then [] else InsertByRank(xs[0], SortByRank(xs[1..], rank), rank)
  }

  lemma {:induction false} InsertMembers<T>(x: Keyed<T>, xs: seq<Keyed<T>>, rank: Text -> seq<int>)
    ensures multiset(InsertByRank(x, xs, rank)) == multiset(xs) + multiset{x}
  {
    if xs != [] {
      InsertMembers(x, xs[1..], rank);
      assert xs == [xs[0]] + xs[1..];
    }
  }

  lemma {:induction false} SortMembers<T>(xs: seq<Keyed<T>>, rank: Text -> seq<int>)
    ensures multiset(SortByRank(xs, rank)) == multiset(xs)
  {
    if xs != [] {
      SortMembers(xs[1..], rank);
      InsertMembers(xs[0], SortByRank(xs[1..], rank), rank);
      assert xs == [xs[0]] + xs[1..];
    }
  }

  lemma {:induction false} BelowInsert<T>(key: Text, x: Keyed<T>, xs: seq<Keyed<T>>, rank: Text -> seq<int>)
    requires Below(key, xs, rank) && Lex(rank(key), rank(x.key)) < 0
    ensures Below(key, InsertByRank(x, xs, rank), rank)
  {
    if xs != [] && Lex(rank(x.key), rank(xs[0].key)) > 0 {
      BelowInsert(key, x, xs[1..], rank);
    }
  }

  lemma BelowTransitive<T>(a: Text, b: Text, xs: seq<Keyed<T>>, rank: Text -> seq<int>)
    requires Lex(rank(a), rank(b)) < 0 && Below(b, xs, rank)
    ensures Below(a, xs, rank)
  {
    forall i | 0 <= i < |xs| ensures Lex(rank(a), rank(xs[i].key)) < 0 {
      LexTransitive(rank(a), rank(b), rank(xs[i].key));
    }
  }

  lemma {:induction false} InsertSorted<T>(x: Keyed<T>, xs: seq<Keyed<T>>, rank: Text -> seq<int>)
    requires Injective(rank) && StrictlySorted(xs, rank) && KeyFree(x.key, xs)
    ensures StrictlySorted(InsertByRank(x, xs, rank), rank)
  {
    if xs != [] {
      LexZero(rank(x.key), rank(xs[0].key));
      LexFlip(rank(x.key), rank(xs[0].key));
      if Lex(rank(x.key), rank(xs[0].key)) <= 0 {
        BelowTransitive(x.key, xs[0].key, xs[1..], rank);
        assert Below(x.key, xs, rank);
        assert ([x] + xs)[1..] == xs;
      } else {
        InsertSorted(x, xs[1..], rank);
        BelowInsert(xs[0].key, x, xs[1..], rank);
        assert ([xs[0]] + InsertByRank(x, xs[1..], rank))[1..] == InsertByRank(x, xs[1..], rank);
      }
    }
  }

  lemma KeyFreeMembers<T>(key: Text, xs: seq<Keyed<T>>, ys: seq<Keyed<T>>)
    requires KeyFree(key, xs) && multiset(xs) == multiset(ys)
    ensures KeyFree(key, ys)
  {
    forall i | 0 <= i < |ys| ensures ys[i].key != key {
      assert ys[i] in multiset(xs);
    }
  }

  /** Sorting entries with distinct keys puts them in strictly increasing order. */
  lemma {:induction false} SortSorted<T>(xs: seq<Keyed<T>>, rank: Text -> seq<int>)
    requires Injective(rank) && KeysDistinct(xs)
    ensures StrictlySorted(SortByRank(xs, rank), rank)
  {
    if xs != [] {
      SortSorted(xs[1..], rank);
      SortMembers(xs[1..], rank);
      KeyFreeMembers(xs[0].key, xs[1..], SortByRank(xs[1..], rank));
      InsertSorted(xs[0], SortByRank(xs[1..], rank), rank);
    }
  }

  lemma SortedHead<T>(xs: seq<Keyed<T>>, ys: seq<Keyed<T>>, rank: Text -> seq<int>)
    requires StrictlySorted(xs, rank) && StrictlySorted(ys, rank)
    requires multiset(xs) == multiset(ys) && xs != [] && ys != []
    ensures xs[0] == ys[0]
  {
    assert xs[0] in multiset(ys) && ys[0] in multiset(xs);
    if xs[0] != ys[0] {
      var j :| 0 <= j < |ys| && ys[j] == xs[0];
      var i :| 0 <= i < |xs| && xs[i] == ys[0];
      assert ys[1..][j - 1] == xs[0] && xs[1..][i - 1] == ys[0];
      LexFlip(rank(xs[0].key), rank(ys[0].key));
    }
  }

  lemma HeadAndRest<T>(xs: seq<T>)
    requires xs != []
    ensures multiset(xs[1..]) == multiset(xs) - multiset{xs[0]}
  {
    assert xs == [xs[0]] + xs[1..];
  }

  /** A bag of entries has only one strictly sorted arrangement. */
  lemma {:induction false} OneArrangement<T>(xs: seq<Keyed<T>>, ys: seq<Keyed<T>>, rank: Text -> seq<int>)
    requires StrictlySorted(xs, rank) && StrictlySorted(ys, rank)
    requires multiset(xs) == multiset(ys)
    ensures xs == ys
  {
    hide Below, Lex;
    assert |multiset(xs)| == |xs| && |multiset(ys)| == |ys|;
    if xs != [] {
      SortedHead(xs, ys, rank);
      HeadAndRest(xs);
      HeadAndRest(ys);
      OneArrangement(xs[1..], ys[1..], rank);
    }
  }

  /** So the order in which an object lists its keys never reaches the sorted list. */
  lemma SortIgnoresOrder<T>(xs: seq<Keyed<T>>, ys: seq<Keyed<T>>, rank: Text -> seq<int>)
    requires Injective(rank) && KeysDistinct(xs) && KeysDistinct(ys)
    requires multiset(xs) == multiset(ys)
    ensures SortByRank(xs, rank) == SortByRank(ys, rank)
  {
    SortSorted(xs, rank);
    SortSorted(ys, rank);
    SortMembers(xs, rank);
    SortMembers(ys, rank);
    OneArrangement(SortByRank(xs, rank), SortByRank(ys, rank), rank);
  }
}
