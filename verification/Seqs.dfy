/** Sequence helpers shared by the models. */
module Seqs {

  /** Concatenations with equal-length heads are equal part by part. */
  lemma SplitConcat<T>(a: seq<T>, b: seq<T>, c: seq<T>, d: seq<T>)
    requires a + b == c + d && |a| == |c|
    ensures a == c && b == d
  {
    assert a == (a + b)[..|a|] == c;
    assert b == (a + b)[|a|..] == d;
  }

  /** Cutting the same head off both sides of an equation. */
  lemma CutHead<T>(p: seq<T>, b: seq<T>, d: seq<T>)
    requires p + b == p + d
    ensures b == d
  {
    SplitConcat(p, b, p, d);
  }

  lemma Regroup<T>(a: seq<T>, b: seq<T>, c: seq<T>, d: seq<T>)
    ensures (a + b + c) + d == a + (b + c + d)
  {
  }

  lemma Reassociate<T>(a: seq<T>, b: seq<T>, c: seq<T>, d: seq<T>)
    ensures a + (b + c) + d == a + b + c + d
  {
  }

  lemma Associate<T>(a: seq<T>, b: seq<T>, c: seq<T>)
    ensures (a + b) + c == a + (b + c)
  {
  }

  /** Replacing the element between a and b. */
  lemma Splice<T>(a: seq<T>, x: T, b: seq<T>, l: seq<T>)
    ensures var s := a + [x] + b; s[..|a|] + l + s[|a| + 1..] == a + (l + b)
  {
    var s := a + [x] + b;
    assert s[..|a|] == a && s[|a| + 1..] == b;
  }

  lemma Behind<T>(a: seq<T>, b: seq<T>)
    ensures a <= a + b && (a + b)[|a|..] == b
  {
  }

  lemma SliceAppend<T>(s: seq<T>, k: nat, i: nat)
    requires k < i <= |s|
    ensures s[k..i] == s[k..i - 1] + [s[i - 1]]
  {
  }

  function RemoveAt<T>(s: seq<T>, i: nat): seq<T>
    requires i < |s|
  {
    s[..i] + s[i + 1..]
  }

  /** Each element replaced by a list, in order. */
  function FlatMap<A, B>(s: seq<A>, f: A -> seq<B>): seq<B> {
    if s == [] then [] else f(s[0]) + FlatMap(s[1..], f)
  }

  lemma {:induction false} FlatMapConcat<A, B>(s: seq<A>, t: seq<A>, f: A -> seq<B>)
    ensures FlatMap(s + t, f) == FlatMap(s, f) + FlatMap(t, f)
  {
    if s == [] {
      assert s + t == t;
    } else {
      assert (s + t)[1..] == s[1..] + t;
      FlatMapConcat(s[1..], t, f);
    }
  }

  lemma FlatMapAppend<A, B>(s: seq<A>, e: A, f: A -> seq<B>)
    ensures FlatMap(s + [e], f) == FlatMap(s, f) + f(e)
  {
    FlatMapConcat(s, [e], f);
    assert FlatMap([e][1..], f) == [];
  }
}
