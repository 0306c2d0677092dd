/** The text of an object's members, cut open at one of them. */
module PrintedMembers {
  import opened Texts
  import opened Seqs
  import opened Json
  import opened Printing

  function Members(fs: seq<Field>): Text {
    JoinMembers(PrintMembers(fs, Plain))
  }

  /** The separator and the members after the first. */
  function Rest(fs: seq<Field>): Text {
    if fs == [] then [] else [COMMA] + Members(fs)
  }

  lemma NoMembers()
    ensures Members([]) == []
  {
  }

  lemma MembersStep(fs: seq<Field>)
    requires fs != []
    ensures Members(fs) == Quote(fs[0].key) + [COLON] + Stringify(fs[0].val) + Rest(fs[1..])
  {
    hide Quote, Print;
    var ms := PrintMembers(fs, Plain);
    assert ms[1..] == PrintMembers(fs[1..], Plain);
    var head := Quote(fs[0].key) + [COLON] + Stringify(fs[0].val);
    assert head + [] == head;
    if |fs| > 1 {
      assert head + [COMMA] + Members(fs[1..]) == head + Rest(fs[1..]);
    }
  }

  lemma Nest(a: Text, b: Text, c: Text, d: Text, x: Text)
    ensures (a + b + c + d) + x == a + (b + (c + (d + x)))
  {
  }

  lemma RestAhead(fs: seq<Field>, x: Text)
    ensures Rest(fs) + x == if fs != [] then [COMMA] + (Members(fs) + x) else x
  {
    hide Members;
  }

  /** The members in front of more text, one piece at a time. */
  lemma MembersAhead(fs: seq<Field>, x: Text)
    requires fs != []
    ensures Members(fs) + x == Quote(fs[0].key) + ([COLON] + (Stringify(fs[0].val) + (Rest(fs[1..]) + x)))
    ensures Rest(fs[1..]) + x == if |fs| > 1 then [COMMA] + (Members(fs[1..]) + x) else x
  {
    hide Quote, Print, Members, Rest;
    MembersStep(fs);
    Nest(Quote(fs[0].key), [COLON], Stringify(fs[0].val), Rest(fs[1..]), x);
    RestAhead(fs[1..], x);
  }

  /** The members before the k-th, each with its separator. */
  function Lead(fs: seq<Field>, k: nat): Text
    requires k < |fs|
  {
    if k == 0 then [] else Quote(fs[0].key) + [COLON] + Stringify(fs[0].val) + [COMMA] + Lead(fs[1..], k - 1)
  }

  /** Everything up to the value of the k-th member. */
  function Before(fs: seq<Field>, k: nat): Text
    requires k < |fs|
  {
    Lead(fs, k) + Quote(fs[k].key) + [COLON]
  }

  lemma Regrouped(h: Text, c: Text, l: Text, q: Text, v: Text, r: Text)
    ensures h + (c + (l + q + v + r)) == (h + c + l) + q + v + r
  {
  }

  lemma CutAtFirst(fs: seq<Field>)
    requires fs != []
    ensures Members(fs) == Before(fs, 0) + Stringify(fs[0].val) + Rest(fs[1..])
  {
    hide Quote, Print, Members, Rest;
    MembersStep(fs);
    assert [] + Quote(fs[0].key) == Quote(fs[0].key);
  }

  /** From the rest of the members to all of them. */
  lemma CutLater(fs: seq<Field>, k: nat)
    requires 0 < k < |fs|
    requires Members(fs[1..]) == Before(fs[1..], k - 1) + Stringify(fs[1..][k - 1].val) + Rest(fs[1..][k..])
    ensures Members(fs) == Before(fs, k) + Stringify(fs[k].val) + Rest(fs[k + 1..])
  {
    MembersStep(fs);
    assert Rest(fs[1..]) == [COMMA] + Members(fs[1..]);
    assert fs[1..][k..] == fs[k + 1..];
    LeadLater(fs, k);
    var head := Quote(fs[0].key) + [COLON] + Stringify(fs[0].val);
    var q, v := Quote(fs[k].key) + [COLON], Stringify(fs[k].val);
    hide Members, Rest, Lead, Quote, Print;
    Regrouped(head, [COMMA], Lead(fs[1..], k - 1), q, v, Rest(fs[k + 1..]));
    Associate(Lead(fs[1..], k - 1), Quote(fs[k].key), [COLON]);
    Associate(Lead(fs, k), Quote(fs[k].key), [COLON]);
  }

  lemma LeadLater(fs: seq<Field>, k: nat)
    requires 0 < k < |fs|
    ensures Lead(fs, k) == Quote(fs[0].key) + [COLON] + Stringify(fs[0].val) + [COMMA] + Lead(fs[1..], k - 1)
  {
    hide Quote, Print;
  }

  /** The members, cut around the value of the k-th. */
  lemma {:induction false} CutAtValue(fs: seq<Field>, k: nat)
    requires k < |fs|
    ensures Members(fs) == Before(fs, k) + Stringify(fs[k].val) + Rest(fs[k + 1..])
  {
    hide Members, Before, Rest, Quote, Print;
    if k == 0 {
      CutAtFirst(fs);
    } else {
      CutAtValue(fs[1..], k - 1);
      CutLater(fs, k);
    }
  }

  /** Letters are written as they are. */
  lemma {:induction false} EscapeLetters(s: Text)
    requires forall i :: 0 <= i < |s| ==> IsLower(s[i])
    ensures Escape(s) == s
  {
    if s != [] {
      EscapeLetters(s[1..]);
      assert Escape(s) == [s[0]] + Escape(s[1..]);
    }
  }
}
