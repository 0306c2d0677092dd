/** Which members sorted JSON prints, and in which order: those of an object rebuilt key by key. */
module CanonKeys {
  import opened Texts
  import opened Json
  import opened KeyOrder
  import opened Printing

  // ---- array indices ----

  lemma {:induction false} DecimalOfDigits(k: Text)
    requires |k| > 0 && (forall i :: 0 <= i < |k| ==> IsDigit(k[i])) && (k[0] != 48 || |k| == 1)
    ensures Decimal(FromDecimal(k)) == k
  {
    var front, last := k[..|k| - 1], k[|k| - 1];
    if front == [] {
      assert FromDecimal([]) == 0 && k == [last];
      assert k[..0] == [];
    } else {
      assert forall i :: 0 <= i < |front| ==> IsDigit(front[i]);
      DecimalOfDigits(front);
      Leading(front);
      var n := FromDecimal(front);
      assert FromDecimal(k) == 10 * n + (last as int - 48) >= 10;
      assert k == front + [last];
    }
  }

  lemma {:induction false} Leading(k: Text)
    requires |k| > 0 && (forall i :: 0 <= i < |k| ==> IsDigit(k[i])) && k[0] != 48
    ensures FromDecimal(k) >= 1
  {
    var front := k[..|k| - 1];
    if front != [] {
      Leading(front);
    }
  }

  lemma {:induction false} NoLeadingZero(n: nat)
    ensures Decimal(n)[0] != 48 || |Decimal(n)| == 1
  {
    if n >= 10 {
      NoLeadingZero(n / 10);
      PositiveStarts(n / 10);
    }
  }

  lemma {:induction false} PositiveStarts(n: nat)
    requires n > 0
    ensures Decimal(n)[0] != 48
  {
    if n >= 10 {
      PositiveStarts(n / 10);
    }
  }

  /** The keys that count as array indices: the decimal numbers below 2^32 - 1, printed plainly. */
  lemma IndicesAre(k: Text)
    ensures ArrayIndex(k) <==> exists n: nat :: n < 4294967295 && k == Decimal(n)
  {
    if ArrayIndex(k) {
      DecimalOfDigits(k);
      assert FromDecimal(k) < 4294967295 && k == Decimal(FromDecimal(k));
    }
    forall n: nat | n < 4294967295 && k == Decimal(n) ensures ArrayIndex(k) {
      DecimalRoundTrip(n);
      NoLeadingZero(n);
      TenDigits();
      DecimalLength(n, 10);
    }
  }

  lemma TenDigits()
    ensures Pow10(10) == 10_000_000_000
  {
    assert Pow10(5) == 100_000;
    assert Pow10(10) == 100_000 * Pow10(5);
  }

  // ---- the order of members ----

  /** Indices come first, in numeric order, then the other keys in the order of their units. */
  predicate ComesBefore(a: Text, b: Text) {
    if ArrayIndex(a) then !ArrayIndex(b) || FromDecimal(a) < FromDecimal(b)
    else !ArrayIndex(b) && Lex(a, b) < 0
  }

  lemma LexOfTwo(x: int, y: int)
    ensures Lex([0, x], [0, y]) < 0 <==> x < y
  {
    var a, b := [0, x], [0, y];
    assert a[1..] == [x] && b[1..] == [y];
    assert Lex(a, b) == Lex([x], [y]);
    if x == y {
      assert a == b;
      LexZero(a, b);
    } else {
      assert [x][0] == x && [y][0] == y;
    }
  }

  lemma RankIsOrder(a: Text, b: Text)
    ensures Lex(OwnKeyRank(a), OwnKeyRank(b)) < 0 <==> ComesBefore(a, b)
  {
    if ArrayIndex(a) && ArrayIndex(b) {
      LexOfTwo(FromDecimal(a), FromDecimal(b));
    } else if !ArrayIndex(a) && !ArrayIndex(b) {
      assert ([1] + a)[1..] == a && ([1] + b)[1..] == b;
    }
  }

  // ---- the member that is lost ----

  lemma {:induction false} DropConcat(a: seq<Keyed<Text>>, b: seq<Keyed<Text>>)
    ensures DropProto(a + b) == DropProto(a) + DropProto(b)
  {
    if a == [] {
      assert a + b == b;
    } else {
      assert (a + b)[1..] == a[1..] + b;
      DropConcat(a[1..], b);
    }
  }

  lemma {:induction false} MembersConcat(a: seq<Field>, b: seq<Field>)
    ensures PrintMembers(a + b, Printing.Canon) == PrintMembers(a, Printing.Canon) + PrintMembers(b, Printing.Canon)
  {
    hide Print;
    if a == [] {
      assert a + b == b;
    } else {
      assert (a + b)[1..] == a[1..] + b;
      MembersConcat(a[1..], b);
    }
  }

  /** A member __proto__ sets a prototype and is not printed. */
  lemma ProtoIsLost(a: seq<Field>, v: Json, b: seq<Field>)
    ensures Print(Obj(a + [Field(Lit("__proto__"), v)] + b), Printing.Canon) == Print(Obj(a + b), Printing.Canon)
  {
    var p := [Field(Lit("__proto__"), v)];
    MembersConcat(a + p, b);
    MembersConcat(a, p);
    MembersConcat(a, b);
    var ma, mp, mb := PrintMembers(a, Printing.Canon), PrintMembers(p, Printing.Canon), PrintMembers(b, Printing.Canon);
    DropConcat(ma + mp, mb);
    DropConcat(ma, mp);
    DropConcat(ma, mb);
    assert DropProto(mp) == [] by {
      assert mp[1..] == [] && mp[0].key == Lit("__proto__");
    }
    assert DropProto(ma) + [] == DropProto(ma);
  }
}
