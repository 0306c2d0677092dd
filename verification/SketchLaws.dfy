/** What a printed sketch says, digit by digit, and which sketches the memo holds. */
module SketchLaws {
  import opened Texts
  import opened Seqs
  import opened Bits
  import opened Simhash

  // ---- features ----

  /** The 32-bit FNV-1a hash from a basis on: one unit after the other is mixed in. */
  lemma {:induction false} FnvTakes(t: Text, c: CodeUnit, h: bv32)
    ensures Fnv([], h) == h && Fnv(t + [c], h) == Mix(Fnv(t, h), c)
    decreases |t|
  {
    hide Mix;
    if t == [] {
      assert [] + [c] == [c] && [c][1..] == [];
    } else {
      assert (t + [c])[1..] == t[1..] + [c];
      FnvTakes(t[1..], c, Mix(h, t[0]));
    }
  }

  /** A unit is mixed in by exclusive or, and the product with the FNV prime is taken behind it. */
  lemma MixIs(h: bv32, c: CodeUnit)
    ensures FNV_PRIME == 16777619 && Mix(h, c) == (h ^ (c as bv32)) * FNV_PRIME
  {
  }

  /** The vote of a feature: the bits of its two hashes, one after the other. */
  lemma VoteIs(t: Text, b: nat)
    requires b < 64
    ensures FeatureBit(t, b) <==>
      if b < 32 then Bit(Fnv(t, 2166136261), b) else Bit(Fnv(t, 2166136261 ^ 0x9e37_79b9), b - 32)
  {
    hide Fnv, Bit;
  }

  /** Two words that follow each other, as one feature. */
  predicate IsPair(f: Text, tokens: seq<Text>, i: nat) {
    i + 1 < |tokens| && f == tokens[i] + [1] + tokens[i + 1]
  }

  /** Each word with its follower is a feature; a single word is one, and without words the text is. */
  lemma FeaturesAre(canonical: Text, tokens: seq<Text>)
    ensures tokens == [] ==> Features(canonical, tokens) == [canonical]
    ensures |tokens| == 1 ==> Features(canonical, tokens) == tokens
    ensures |tokens| >= 2 ==> |Features(canonical, tokens)| == |tokens| - 1
    ensures |tokens| >= 2 ==> forall i: nat :: i < |tokens| - 1 ==> IsPair(Features(canonical, tokens)[i], tokens, i)
  {
    hide IsPair;
    BigramsAre(tokens);
  }

  lemma {:induction false} BigramsAre(tokens: seq<Text>)
    ensures |tokens| >= 1 ==> |Bigrams(tokens)| == |tokens| - 1
    ensures |tokens| == 0 ==> |Bigrams(tokens)| == 0
    ensures forall i: nat :: i < |Bigrams(tokens)| ==> IsPair(Bigrams(tokens)[i], tokens, i)
  {
    if |tokens| >= 2 {
      var rest := Bigrams(tokens[1..]);
      BigramsAre(tokens[1..]);
      forall i: nat | i < |Bigrams(tokens)| ensures IsPair(Bigrams(tokens)[i], tokens, i) {
        if i > 0 {
          assert IsPair(rest[i - 1], tokens[1..], i - 1);
        }
      }
    }
  }

  /** The step between sampled features: the least that leaves at most 256 of them. */
  predicate IsStep(n: nat, step: nat) {
    step >= 1 && n <= step * 256 && (step > 1 ==> n > (step - 1) * 256)
  }

  lemma {:induction false} SampledAt(features: seq<Text>, f: nat, step: nat, k: nat)
    requires step >= 1 && f + k * step < |features|
    ensures k < |SampledFrom(features, f, step)| && SampledFrom(features, f, step)[k] == features[f + k * step]
    decreases k
  {
    if k > 0 {
      assert k * step == step + (k - 1) * step;
      SampledAt(features, f + step, step, k - 1);
    } else {
      assert k * step == 0;
    }
  }

  lemma {:induction false} SampledStays(features: seq<Text>, f: nat, step: nat, k: nat)
    requires step >= 1 && k < |SampledFrom(features, f, step)|
    ensures f + k * step < |features|
    decreases k
  {
    if k > 0 {
      assert k * step == step + (k - 1) * step;
      SampledStays(features, f + step, step, k - 1);
    } else {
      assert k * step == 0;
    }
  }

  lemma StrideIsStep(n: nat)
    ensures IsStep(n, Stride(n))
  {
    if n > 256 {
      var k := (n + 255) / 256;
      assert 256 * k <= n + 255 < 256 * k + 256;
    }
  }

  /** The features sampled are those at every multiple of the step, and no others. */
  lemma SamplesEveryStep(features: seq<Text>) returns (step: nat)
    ensures IsStep(|features|, step)
    ensures forall k: nat :: k < |Sampled(features)| <==> k * step < |features|
    ensures forall k: nat :: k < |Sampled(features)| ==> k * step < |features| && Sampled(features)[k] == features[k * step]
  {
    hide SampledFrom, Stride;
    step := Stride(|features|);
    StrideIsStep(|features|);
    forall k: nat ensures k < |Sampled(features)| <==> k * step < |features| {
      if k < |Sampled(features)| {
        SampledStays(features, 0, step, k);
      }
      if k * step < |features| {
        SampledAt(features, 0, step, k);
      }
    }
    forall k: nat | k < |Sampled(features)| ensures Sampled(features)[k] == features[k * step] {
      SampledAt(features, 0, step, k);
    }
  }

  // ---- digits ----

  /** The four bits of a hexadecimal digit. */
  predicate DigitBit(d: CodeUnit, i: nat)
    requires IsHex(d) && i < 4
  {
    var n := if d <= '9' as int then d - '0' as int else d - 'a' as int + 10;
    match i
    case 0 => n % 2 == 1
    case 1 => n / 2 % 2 == 1
    case 2 => n / 4 % 2 == 1
    case _ => n / 8 % 2 == 1
  }

  lemma DigitIs(d: bv32)
    requires d < 16
    ensures IsHex(HexChar(d))
    ensures DigitBit(HexChar(d), 0) <==> d & 1 == 1
    ensures DigitBit(HexChar(d), 1) <==> d & 2 == 2
    ensures DigitBit(HexChar(d), 2) <==> d & 4 == 4
    ensures DigitBit(HexChar(d), 3) <==> d & 8 == 8
  {
    BitsOfDigit(d);
  }

  lemma BitsOfDigit(d: bv32)
    requires d < 16
    ensures (d & 1 == 1 <==> (d as int) % 2 == 1) && (d & 2 == 2 <==> (d as int) / 2 % 2 == 1)
    ensures (d & 4 == 4 <==> (d as int) / 4 % 2 == 1) && (d & 8 == 8 <==> (d as int) / 8 % 2 == 1)
  {
  }

  lemma Nibble0(x: bv32)
    ensures (Nibble(x, 0) & 1 == 1 <==> Bit(x, 28)) && (Nibble(x, 0) & 2 == 2 <==> Bit(x, 29))
    ensures (Nibble(x, 0) & 4 == 4 <==> Bit(x, 30)) && (Nibble(x, 0) & 8 == 8 <==> Bit(x, 31))
  {
  }

  lemma Nibble1(x: bv32)
    ensures (Nibble(x, 1) & 1 == 1 <==> Bit(x, 24)) && (Nibble(x, 1) & 2 == 2 <==> Bit(x, 25))
    ensures (Nibble(x, 1) & 4 == 4 <==> Bit(x, 26)) && (Nibble(x, 1) & 8 == 8 <==> Bit(x, 27))
  {
  }

  lemma Nibble2(x: bv32)
    ensures (Nibble(x, 2) & 1 == 1 <==> Bit(x, 20)) && (Nibble(x, 2) & 2 == 2 <==> Bit(x, 21))
    ensures (Nibble(x, 2) & 4 == 4 <==> Bit(x, 22)) && (Nibble(x, 2) & 8 == 8 <==> Bit(x, 23))
  {
  }

  lemma Nibble3(x: bv32)
    ensures (Nibble(x, 3) & 1 == 1 <==> Bit(x, 16)) && (Nibble(x, 3) & 2 == 2 <==> Bit(x, 17))
    ensures (Nibble(x, 3) & 4 == 4 <==> Bit(x, 18)) && (Nibble(x, 3) & 8 == 8 <==> Bit(x, 19))
  {
  }

  lemma Nibble4(x: bv32)
    ensures (Nibble(x, 4) & 1 == 1 <==> Bit(x, 12)) && (Nibble(x, 4) & 2 == 2 <==> Bit(x, 13))
    ensures (Nibble(x, 4) & 4 == 4 <==> Bit(x, 14)) && (Nibble(x, 4) & 8 == 8 <==> Bit(x, 15))
  {
  }

  lemma Nibble5(x: bv32)
    ensures (Nibble(x, 5) & 1 == 1 <==> Bit(x, 8)) && (Nibble(x, 5) & 2 == 2 <==> Bit(x, 9))
    ensures (Nibble(x, 5) & 4 == 4 <==> Bit(x, 10)) && (Nibble(x, 5) & 8 == 8 <==> Bit(x, 11))
  {
  }

  lemma Nibble6(x: bv32)
    ensures (Nibble(x, 6) & 1 == 1 <==> Bit(x, 4)) && (Nibble(x, 6) & 2 == 2 <==> Bit(x, 5))
    ensures (Nibble(x, 6) & 4 == 4 <==> Bit(x, 6)) && (Nibble(x, 6) & 8 == 8 <==> Bit(x, 7))
  {
  }

  lemma Nibble7(x: bv32)
    ensures (Nibble(x, 7) & 1 == 1 <==> Bit(x, 0)) && (Nibble(x, 7) & 2 == 2 <==> Bit(x, 1))
    ensures (Nibble(x, 7) & 4 == 4 <==> Bit(x, 2)) && (Nibble(x, 7) & 8 == 8 <==> Bit(x, 3))
  {
  }

  lemma NibbleBits(x: bv32, k: nat)
    requires k < 8
    ensures (Nibble(x, k) & 1 == 1 <==> Bit(x, 28 - 4 * k)) && (Nibble(x, k) & 2 == 2 <==> Bit(x, 29 - 4 * k))
    ensures (Nibble(x, k) & 4 == 4 <==> Bit(x, 30 - 4 * k)) && (Nibble(x, k) & 8 == 8 <==> Bit(x, 31 - 4 * k))
  {
    hide Nibble, Bit;
    match k
    case 0 => Nibble0(x);
    case 1 => Nibble1(x);
    case 2 => Nibble2(x);
    case 3 => Nibble3(x);
    case 4 => Nibble4(x);
    case 5 => Nibble5(x);
    case 6 => Nibble6(x);
    case _ => Nibble7(x);
  }

  /** Bit i of a word stands in its text, four bits to a digit, counted from the right. */
  lemma WordDigits(x: bv32, i: nat)
    requires i < 32
    ensures IsHex(Hex8(x)[7 - i / 4]) && (DigitBit(Hex8(x)[7 - i / 4], i % 4) <==> Bit(x, i))
  {
    hide Nibble, Bit, HexChar, IsHex, DigitBit, Hex8;
    var k := 7 - i / 4;
    NibbleBits(x, k);
    DigitIs(Nibble(x, k));
    assert i == 28 - 4 * k + i % 4;
    assert Hex8(x)[k] == HexChar(Nibble(x, k));
  }

  /**
   * The sixteen digits of a sketch, read from the right, are its 64 bits: each is set exactly when its tally
   * over the sampled features, wrapped into a signed byte, is positive.
   */
  lemma DigitsSayTallies(canonical: Text, tokens: seq<Text>, b: nat)
    requires b < 64
    ensures var t, s := SimhashHex(canonical, tokens), Sampled(Features(canonical, tokens));
      && |t| == 16 && IsHex(t[15 - b / 4])
      && (DigitBit(t[15 - b / 4], b % 4) <==> Wrap8(Tally(s, b)) > 0)
  {
    hide Bit, IsHex, DigitBit, Hex8, Word, Sampled, Features, Tally, Wrap8;
    var sk, s := SketchOf(canonical, tokens), Sampled(Features(canonical, tokens));
    PrintHalves(sk);
    if b < 32 {
      WordDigits(sk.lo, b);
      WordBits(s, 0, 32, b);
      assert Print(sk)[15 - b / 4] == Hex8(sk.lo)[7 - b / 4];
    } else {
      WordDigits(sk.hi, b - 32);
      WordBits(s, 32, 32, b - 32);
      assert Print(sk)[15 - b / 4] == Hex8(sk.hi)[7 - (b - 32) / 4];
    }
  }

  lemma PrintHalves(s: Sketch)
    ensures |Print(s)| == 16
    ensures forall i :: 0 <= i < 8 ==> Print(s)[i] == Hex8(s.hi)[i] && Print(s)[8 + i] == Hex8(s.lo)[i]
  {
    hide Hex8;
  }

  // ---- what the memo holds ----

  /** A list without one of its keys. */
  function Minus(keys: seq<ItemHash>, key: ItemHash): (r: seq<ItemHash>) {
    if keys == [] then []
    else if keys[0] == key then keys[1..]
    else [keys[0]] + Minus(keys[1..], key)
  }

  /** The keys looked up, each where it was looked up last. */
  function LastUses(lookups: seq<ItemHash>): seq<ItemHash> {
    if lookups == [] then []
    else Minus(LastUses(lookups[..|lookups| - 1]), lookups[|lookups| - 1]) + [lookups[|lookups| - 1]]
  }

  function Keys(memo: seq<Memoized>): seq<ItemHash> {
    seq(|memo|, i requires 0 <= i < |memo| => memo[i].key)
  }

  /** The memo after a run of lookups. */
  function AfterLookups(lookups: seq<ItemHash>, sketches: ItemHash -> Text): seq<Memoized> {
    if lookups == [] then []
    else
      var key := lookups[|lookups| - 1];
      Touched(AfterLookups(lookups[..|lookups| - 1], sketches), key, sketches(key))
  }

  predicate NoRepeat(keys: seq<ItemHash>) {
    forall i, j :: 0 <= i < j < |keys| ==> keys[i] != keys[j]
  }

  lemma {:induction false} MinusCuts(keys: seq<ItemHash>, key: ItemHash, i: nat)
    requires i <= |keys| && (i < |keys| ==> keys[i] == key) && forall j :: 0 <= j < i ==> keys[j] != key
    ensures Minus(keys, key) == if i < |keys| then keys[..i] + keys[i + 1..] else keys
    decreases |keys|
  {
    if keys != [] && keys[0] != key {
      MinusCuts(keys[1..], key, i - 1);
      assert keys == [keys[0]] + keys[1..];
    } else if keys != [] {
      assert i == 0;
    }
  }

  /** The youngest n keys. */
  function Youngest(keys: seq<ItemHash>, n: nat): seq<ItemHash> {
    if |keys| <= n then keys else keys[|keys| - n..]
  }

  lemma KeysConcat(a: seq<Memoized>, b: seq<Memoized>)
    ensures Keys(a + b) == Keys(a) + Keys(b)
  {
  }

  lemma KeysCut(memo: seq<Memoized>, i: nat)
    requires i <= |memo|
    ensures Keys(memo[..i]) == Keys(memo)[..i] && Keys(memo[i..]) == Keys(memo)[i..]
  {
  }

  lemma KeyIn(memo: seq<Memoized>, key: ItemHash)
    ensures key in Keys(memo) <==> FindKey(memo, key) < |memo|
    ensures Minus(Keys(memo), key) ==
      var i := FindKey(memo, key); if i < |memo| then Keys(memo)[..i] + Keys(memo)[i + 1..] else Keys(memo)
  {
    var i := FindKey(memo, key);
    assert forall j :: 0 <= j < |memo| ==> Keys(memo)[j] == memo[j].key;
    if i < |memo| {
      assert Keys(memo)[i] == key;
    }
    MinusCuts(Keys(memo), key, i);
  }

  /** A lookup moves its key to the young end, or puts it there and drops the oldest of 8192. */
  lemma TouchedKeys(memo: seq<Memoized>, key: ItemHash, sketch: Text)
    ensures Keys(Touched(memo, key, sketch)) ==
      if key in Keys(memo) then Minus(Keys(memo), key) + [key]
      else (if |memo| >= 8192 then Keys(memo)[1..] else Keys(memo)) + [key]
  {
    KeyIn(memo, key);
    var i := FindKey(memo, key);
    hide Keys, Minus;
    if i < |memo| {
      KeysConcat(memo[..i] + memo[i + 1..], [memo[i]]);
      KeysConcat(memo[..i], memo[i + 1..]);
      KeysCut(memo, i);
      KeysCut(memo, i + 1);
      OneKey(memo[i]);
    } else {
      KeysConcat(if |memo| >= 8192 then memo[1..] else memo, [Memoized(key, sketch)]);
      OneKey(Memoized(key, sketch));
      if |memo| >= 8192 {
        KeysCut(memo, 1);
      }
    }
  }

  lemma OneKey(m: Memoized)
    ensures Keys([m]) == [m.key]
  {
  }

  /** Where a key stands in a list without repetition. */
  lemma KeyAt(keys: seq<ItemHash>, key: ItemHash) returns (i: nat)
    requires NoRepeat(keys)
    ensures i <= |keys| && (i < |keys| ==> keys[i] == key) && forall j :: 0 <= j < |keys| && j != i ==> keys[j] != key
    ensures Minus(keys, key) == if i < |keys| then keys[..i] + keys[i + 1..] else keys
    ensures key in keys <==> i < |keys|
  {
    hide Minus;
    if key in keys {
      i :| 0 <= i < |keys| && keys[i] == key;
    } else {
      i := |keys|;
    }
    MinusCuts(keys, key, i);
  }

  lemma CutOnce(keys: seq<ItemHash>, i: nat)
    requires NoRepeat(keys) && i < |keys|
    ensures NoRepeat(keys[..i] + keys[i + 1..]) && keys[i] !in keys[..i] + keys[i + 1..]
  {
    var r := keys[..i] + keys[i + 1..];
    assert forall k :: 0 <= k < |r| ==> r[k] == keys[if k < i then k else k + 1];
  }

  lemma AddOnce(keys: seq<ItemHash>, key: ItemHash)
    requires NoRepeat(keys) && key !in keys
    ensures NoRepeat(keys + [key])
  {
    assert forall k :: 0 <= k < |keys| ==> keys[k] in keys;
  }

  lemma MinusShape(keys: seq<ItemHash>, key: ItemHash)
    requires NoRepeat(keys)
    ensures NoRepeat(Minus(keys, key) + [key])
  {
    hide Minus, NoRepeat;
    var i := KeyAt(keys, key);
    if i < |keys| {
      CutOnce(keys, i);
    }
    AddOnce(Minus(keys, key), key);
  }

  lemma {:induction false} LastUsesOnce(lookups: seq<ItemHash>)
    ensures NoRepeat(LastUses(lookups))
  {
    if lookups != [] {
      LastUsesOnce(lookups[..|lookups| - 1]);
      MinusShape(LastUses(lookups[..|lookups| - 1]), lookups[|lookups| - 1]);
    }
  }

  lemma YoungestOfFew(keys: seq<ItemHash>, key: ItemHash, n: nat)
    requires NoRepeat(keys) && 0 < n && |keys| <= n
    ensures Youngest(Minus(keys, key) + [key], n) ==
      if key in keys then Minus(keys, key) + [key] else (if |keys| >= n then keys[1..] else keys) + [key]
  {
    hide Minus, NoRepeat;
    var i := KeyAt(keys, key);
    if |keys| == n && i == |keys| {
      assert (keys + [key])[1..] == keys[1..] + [key];
    }
  }

  lemma MinusHead(keys: seq<ItemHash>, key: ItemHash)
    requires keys != []
    ensures Minus(keys, key) == if keys[0] == key then keys[1..] else [keys[0]] + Minus(keys[1..], key)
  {
  }

  lemma {:induction false} MinusBehind(a: seq<ItemHash>, b: seq<ItemHash>, key: ItemHash)
    requires key !in a
    ensures Minus(a + b, key) == a + Minus(b, key)
  {
    hide Minus;
    if a == [] {
      assert a + b == b && [] + Minus(b, key) == Minus(b, key);
    } else {
      assert (a + b)[1..] == a[1..] + b && (a + b)[0] == a[0];
      MinusBehind(a[1..], b, key);
      MinusHead(a + b, key);
      Associate([a[0]], a[1..], Minus(b, key));
      assert [a[0]] + a[1..] == a;
    }
  }

  lemma {:induction false} MinusInFront(a: seq<ItemHash>, b: seq<ItemHash>, key: ItemHash)
    requires key in a
    ensures Minus(a + b, key) == Minus(a, key) + b
  {
    hide Minus;
    assert (a + b)[1..] == a[1..] + b && (a + b)[0] == a[0];
    MinusHead(a, key);
    MinusHead(a + b, key);
    if a[0] != key {
      MinusInFront(a[1..], b, key);
      Associate([a[0]], Minus(a[1..], key), b);
    }
  }

  lemma {:induction false} MinusSize(keys: seq<ItemHash>, key: ItemHash)
    ensures |Minus(keys, key)| == |keys| - if key in keys then 1 else 0
  {
    if keys != [] && keys[0] != key {
      MinusSize(keys[1..], key);
    }
  }

  lemma YoungestTail(front: seq<ItemHash>, tail: seq<ItemHash>)
    ensures Youngest(front + tail, |tail|) == tail
  {
    assert |front| == 0 ==> front + tail == tail;
  }

  lemma YoungestShift(front: seq<ItemHash>, kept: seq<ItemHash>, key: ItemHash)
    requires kept != []
    ensures Youngest(front + kept + [key], |kept|) == kept[1..] + [key]
  {
    hide Youngest;
    assert front + kept + [key] == (front + [kept[0]]) + (kept[1..] + [key]);
    YoungestTail(front + [kept[0]], kept[1..] + [key]);
  }

  lemma YoungestOfMany(front: seq<ItemHash>, kept: seq<ItemHash>, key: ItemHash)
    requires NoRepeat(front + kept) && kept != []
    ensures Youngest(Minus(front + kept, key) + [key], |kept|) ==
      (if key in kept then Minus(kept, key) else kept[1..]) + [key]
  {
    hide Minus, Youngest;
    MinusSize(kept, key);
    if key !in front {
      MinusBehind(front, kept, key);
    }
    if key in front {
      MinusInFront(front, kept, key);
      InOnePart(front, kept, key);
      YoungestShift(Minus(front, key), kept, key);
    } else if key in kept {
      Associate(front, Minus(kept, key), [key]);
      YoungestTail(front, Minus(kept, key) + [key]);
    } else {
      MinusNone(kept, key);
      YoungestShift(front, kept, key);
    }
  }

  lemma InOnePart(a: seq<ItemHash>, b: seq<ItemHash>, key: ItemHash)
    requires NoRepeat(a + b) && key in a
    ensures key !in b
  {
    var i :| 0 <= i < |a| && a[i] == key;
    assert (a + b)[i] == key && forall j :: 0 <= j < |b| ==> (a + b)[|a| + j] == b[j];
  }

  lemma {:induction false} MinusNone(keys: seq<ItemHash>, key: ItemHash)
    requires key !in keys
    ensures Minus(keys, key) == keys
  {
    if keys != [] {
      MinusNone(keys[1..], key);
    }
  }

  /** One more lookup on the youngest n keys of a list. */
  lemma YoungestStep(keys: seq<ItemHash>, key: ItemHash, n: nat)
    requires NoRepeat(keys) && n > 0
    ensures Youngest(Minus(keys, key) + [key], n) ==
      var kept := Youngest(keys, n);
      if key in kept then Minus(kept, key) + [key] else (if |kept| >= n then kept[1..] else kept) + [key]
  {
    hide Minus, NoRepeat;
    if |keys| <= n {
      YoungestOfFew(keys, key, n);
    } else {
      var d := |keys| - n;
      assert keys == keys[..d] + keys[d..];
      YoungestOfMany(keys[..d], keys[d..], key);
    }
  }

  /** After any run of lookups the memo holds the 8192 keys looked up last, in the order of their last use. */
  lemma {:induction false} MemoIsRecent(lookups: seq<ItemHash>, sketches: ItemHash -> Text)
    ensures Keys(AfterLookups(lookups, sketches)) == Youngest(LastUses(lookups), 8192)
  {
    if lookups != [] {
      hide Touched, Minus, Youngest;
      var before, key := lookups[..|lookups| - 1], lookups[|lookups| - 1];
      MemoIsRecent(before, sketches);
      LastUsesOnce(before);
      YoungestOnce(LastUses(before), 8192);
      TouchedKeys(AfterLookups(before, sketches), key, sketches(key));
      YoungestStep(LastUses(before), key, 8192);
    } else {
      NothingRecent();
    }
  }

  lemma NothingRecent()
    ensures Youngest([], 8192) == []
  {
  }

  lemma YoungestOnce(keys: seq<ItemHash>, n: nat)
    requires NoRepeat(keys)
    ensures NoRepeat(Youngest(keys, n))
  {
  }
}
