/** The 64-bit similarity sketch of a message, its distance, and the memo in front of it. */
module Simhash {
  import opened Texts
  import opened Seqs
  import opened Bits

  const MAX_FEATURES := 256
  const SKETCH_MEMO_CAP := 8192
  const FNV_PRIME: bv32 := 16777619
  const BASIS: bv32 := 2166136261
  const OTHER_BASIS: bv32 := 2166136261 ^ 0x9e37_79b9

  // ---- features ----

  function Bigrams(tokens: seq<Text>): seq<Text> {
    if |tokens| < 2 then [] else [tokens[0] + [1] + tokens[1]] + Bigrams(tokens[1..])
  }

  /** Word pairs; a single word stands alone, and a text without words is its own feature. */
  function Features(canonical: Text, tokens: seq<Text>): (r: seq<Text>)
    ensures r != []
  {
    if tokens == [] then [canonical] else if |tokens| == 1 then tokens else Bigrams(tokens)
  }

  /** Math.max(1, Math.ceil(n / MAX_FEATURES)). */
  function Stride(n: nat): (k: nat)
    ensures k >= 1 && n <= k * MAX_FEATURES && (n <= MAX_FEATURES ==> k == 1)
  {
    if n <= MAX_FEATURES then 1 else (n + MAX_FEATURES - 1) / MAX_FEATURES
  }

  /** Every stride-th feature from position f on. */
  function SampledFrom(features: seq<Text>, f: nat, stride: nat): (r: seq<Text>)
    requires stride >= 1
    ensures forall t :: t in r ==> t in features
    decreases |features| - f
  {
    if f >= |features| then [] else [features[f]] + SampledFrom(features, f + stride, stride)
  }

  function Sampled(features: seq<Text>): seq<Text> {
    SampledFrom(features, 0, Stride(|features|))
  }

  lemma {:induction false} SampleSize(features: seq<Text>, f: nat, stride: nat, k: nat)
    requires stride >= 1 && |features| <= f + k * stride
    ensures |SampledFrom(features, f, stride)| <= k
    decreases k
  {
    if f < |features| && k > 0 {
      assert k * stride == stride + (k - 1) * stride;
      SampleSize(features, f + stride, stride, k - 1);
    }
  }

  lemma {:induction false} SampleAll(features: seq<Text>, f: nat)
    requires f <= |features|
    ensures SampledFrom(features, f, 1) == features[f..]
    decreases |features| - f
  {
    if f < |features| {
      SampleAll(features, f + 1);
    }
  }

  /** At most 256 features are sampled, and all of them when there are no more. */
  lemma SampleIsBounded(features: seq<Text>)
    ensures |Sampled(features)| <= MAX_FEATURES
    ensures |features| <= MAX_FEATURES ==> Sampled(features) == features
  {
    SampleSize(features, 0, Stride(|features|), MAX_FEATURES);
    SampleAll(features, 0);
  }

  function Mix(h: bv32, c: CodeUnit): bv32 {
    (h ^ (c as bv32)) * FNV_PRIME
  }

  /** fnv1a32. */
  function Fnv(t: Text, h: bv32): bv32
    decreases |t|
  {
    if t == [] then h else Fnv(t[1..], Mix(h, t[0]))
  }

  predicate FeatureBit(t: Text, b: nat)
    requires b < 64
  {
    if b < 32 then Bit(Fnv(t, BASIS), b) else Bit(Fnv(t, OTHER_BASIS), b - 32)
  }

  // ---- votes ----

  /** How many of the features vote for the bit. */
  function Ayes(features: seq<Text>, b: nat): (n: nat)
    requires b < 64
    ensures n <= |features|
  {
    if features == [] then 0
    else Ayes(features[..|features| - 1], b) + (if FeatureBit(features[|features| - 1], b) then 1 else 0)
  }

  /** Ayes minus noes. */
  function Tally(features: seq<Text>, b: nat): int
    requires b < 64
  {
    2 * Ayes(features, b) - |features|
  }

  /** What a signed 8-bit element holds of a number. */
  function Wrap8(n: int): (r: int)
    ensures -128 <= r <= 127
  {
    (n + 128) % 256 - 128
  }

  lemma WrapAdds(n: int, d: int)
    ensures Wrap8(Wrap8(n) + d) == Wrap8(n + d)
  {
  }

  /** The array holds the wrapped margins of these features. */
  ghost predicate Counted(v: array<int>, features: seq<Text>)
    reads v
  {
    v.Length == 64 && forall b :: 0 <= b < 64 ==> v[b] == Wrap8(Tally(features, b))
  }

  /** One feature's vote on every bit. */
  method Vote(v: array<int>, t: Text, ghost done: seq<Text>)
    requires Counted(v, done)
    modifies v
    ensures Counted(v, done + [t])
  {
    hide FeatureBit, Wrap8, Tally;
    for b := 0 to 64
      invariant forall c :: 0 <= c < b ==> v[c] == Wrap8(Tally(done + [t], c))
      invariant forall c :: b <= c < 64 ==> v[c] == Wrap8(Tally(done, c))
    {
      OneMoreVote(done, t, b);
      v[b] := Wrap8(v[b] + (if FeatureBit(t, b) then 1 else -1));
    }
  }

  lemma SampleStep(features: seq<Text>, f: nat, stride: nat)
    requires stride >= 1
    ensures SampledFrom(features, f, stride) ==
      if f < |features| then [features[f]] + SampledFrom(features, f + stride, stride) else []
  {
  }

  /** The votes, counted feature by feature into wrapping 8-bit elements. */
  method CountVotes(features: seq<Text>) returns (v: array<int>)
    ensures fresh(v) && v.Length == 64
    ensures forall b :: 0 <= b < 64 ==> v[b] == Wrap8(Tally(Sampled(features), b))
  {
    hide Wrap8, Stride, Tally, SampledFrom;
    ZeroWraps();
    v := new int[64](_ => 0);
    var stride := Stride(|features|);
    var f := 0;
    ghost var done: seq<Text> := [];
    while f < |features|
      invariant done + SampledFrom(features, f, stride) == Sampled(features)
      invariant Counted(v, done)
      decreases |features| - f
    {
      SampleStep(features, f, stride);
      Associate(done, [features[f]], SampledFrom(features, f + stride, stride));
      Vote(v, features[f], done);
      done := done + [features[f]];
      f := f + stride;
    }
    SampleStep(features, f, stride);
    assert done == Sampled(features);
  }

  lemma ZeroWraps()
    ensures forall b :: 0 <= b < 64 ==> Wrap8(Tally([], b)) == 0
  {
  }

  lemma OneMoreVote(done: seq<Text>, t: Text, b: nat)
    requires b < 64
    ensures Wrap8(Wrap8(Tally(done, b)) + (if FeatureBit(t, b) then 1 else -1)) == Wrap8(Tally(done + [t], b))
  {
    hide FeatureBit;
    WrapAdds(Tally(done, b), if FeatureBit(t, b) then 1 else -1);
    assert (done + [t])[..|done|] == done;
  }

  /** n bits of the sketch from position base on: set where the wrapped tally is positive. */
  function Word(features: seq<Text>, base: nat, n: nat): bv32
    requires n <= 32 && base + n <= 64
  {
    if n == 0 then 0
    else
      var rest := Word(features, base, n - 1);
      if Wrap8(Tally(features, base + n - 1)) > 0 then WithBit(rest, n - 1) else rest
  }

  lemma {:induction false} WordBits(features: seq<Text>, base: nat, n: nat, i: nat)
    requires n <= 32 && base + n <= 64 && i < 32
    ensures Bit(Word(features, base, n), i) <==> i < n && Wrap8(Tally(features, base + i)) > 0
  {
    hide Bit, Wrap8, Tally, WithBit;
    if n == 0 {
      ZeroBit(i);
    } else {
      WordBits(features, base, n - 1, i);
      SetBit(Word(features, base, n - 1), n - 1, i);
    }
  }

  lemma ZeroBit(i: nat)
    requires i < 32
    ensures !Bit(0, i)
  {
  }

  lemma WrapSign(n: int)
    requires -256 <= n <= 256
    ensures (Wrap8(n) > 0 <==> n > 0) <==> (-128 <= n <= 127 || n == -256)
  {
  }

  /**
   * A sketch bit is the strict majority of the sampled features exactly when the margin fits a signed byte, or
   * is all 256 against; with at most 127 features it always is.
   */
  lemma BitIsMajority(features: seq<Text>, base: nat, i: nat)
    requires (base == 0 || base == 32) && i < 32
    ensures var s := Sampled(features);
      var margin := Tally(s, base + i);
      && ((Bit(Word(s, base, 32), i) <==> 2 * Ayes(s, base + i) > |s|) <==> (-128 <= margin <= 127 || margin == -256))
      && (|s| <= 127 ==> (Bit(Word(s, base, 32), i) <==> 2 * Ayes(s, base + i) > |s|))
  {
    hide Bit, Word, Sampled, Ayes, Wrap8;
    WordBits(Sampled(features), base, 32, i);
    SampleIsBounded(features);
    WrapSign(Tally(Sampled(features), base + i));
  }

  lemma {:induction false} UnanimousAyes(t: Text, n: nat, b: nat)
    requires b < 64
    ensures Ayes(seq(n, _ => t), b) == if FeatureBit(t, b) then n else 0
  {
    if n > 0 {
      hide FeatureBit;
      UnanimousAyes(t, n - 1, b);
      assert seq(n, _ => t)[..n - 1] == seq(n - 1, _ => t);
    }
  }

  /** A text that repeats one word 201 times has 200 equal features; every bit of its sketch goes against all
      of them. */
  lemma UnanimousOverflow(word: Text, base: nat, i: nat)
    requires (base == 0 || base == 32) && i < 32
    ensures var features := Features(word, seq(201, _ => word));
      && features == seq(200, _ => word + [1] + word)
      && (Bit(Word(Sampled(features), base, 32), i) <==> !FeatureBit(word + [1] + word, base + i))
  {
    hide Bit, Word, Sampled, FeatureBit, Ayes, Bigrams;
    var pair := word + [1] + word;
    RepeatedBigrams(word, 200);
    SampleIsBounded(seq(200, _ => pair));
    UnanimousAyes(pair, 200, base + i);
    WordBits(seq(200, _ => pair), base, 32, i);
  }

  lemma {:induction false} RepeatedBigrams(word: Text, n: nat)
    ensures Bigrams(seq(n + 1, _ => word)) == seq(n, _ => word + [1] + word)
  {
    var tokens := seq(n + 1, _ => word);
    if n > 0 {
      RepeatedBigrams(word, n - 1);
      assert tokens[1..] == seq(n, _ => word);
    }
  }

  // ---- sketches ----

  datatype Sketch = Sketch(hi: bv32, lo: bv32)

  /** What simhashHex computes, before printing. */
  function SketchOf(canonical: Text, tokens: seq<Text>): Sketch {
    var s := Sampled(Features(canonical, tokens));
    Sketch(Word(s, 32, 32), Word(s, 0, 32))
  }

  /** simhashHex up to its hexadecimal printing. */
  method ComputeSketch(canonical: Text, tokens: seq<Text>) returns (r: Sketch)
    ensures r == SketchOf(canonical, tokens)
  {
    hide Wrap8, Tally, Sampled, Features, WithBit;
    var features := Features(canonical, tokens);
    var v := CountVotes(features);
    var lo: bv32, hi: bv32 := 0, 0;
    for b := 0 to 32
      invariant lo == Word(Sampled(features), 0, b) && hi == Word(Sampled(features), 32, b)
    {
      if v[b] > 0 {
        lo := WithBit(lo, b);
      }
      if v[b + 32] > 0 {
        hi := WithBit(hi, b);
      }
    }
    return Sketch(hi, lo);
  }

  // ---- printing and distance ----

  function HexChar(d: bv32): CodeUnit
    requires d < 16
  {
    var n := d as int;
    if n < 10 then 48 + n else 87 + n
  }

  predicate IsHex(c: CodeUnit) {
    48 <= c <= 57 || 97 <= c <= 102
  }

  function HexValue(c: CodeUnit): bv32
    requires IsHex(c)
  {
    if c <= 57 then (c - 48) as bv32 else (c - 87) as bv32
  }

  lemma HexRoundTrip(d: bv32)
    requires d < 16
    ensures IsHex(HexChar(d)) && HexValue(HexChar(d)) == d
  {
  }

  function Nibble(x: bv32, k: nat): (d: bv32)
    requires k < 8
    ensures d < 16
  {
    match k
    case 0 => (x >> 28) & 15
    case 1 => (x >> 24) & 15
    case 2 => (x >> 20) & 15
    case 3 => (x >> 16) & 15
    case 4 => (x >> 12) & 15
    case 5 => (x >> 8) & 15
    case 6 => (x >> 4) & 15
    case _ => x & 15
  }

  /** x.toString(16).padStart(8, "0"). */
  function Hex8(x: bv32): (t: Text)
    ensures |t| == 8 && forall i :: 0 <= i < 8 ==> t[i] == HexChar(Nibble(x, i))
  {
    seq(8, i requires 0 <= i < 8 => HexChar(Nibble(x, i)))
  }

  predicate AllHex(t: Text) {
    forall i :: 0 <= i < |t| ==> IsHex(t[i])
  }

  function Join(a: bv32, d: bv32): bv32 {
    (a << 4) | d
  }

  /** hexToU32 of eight hexadecimal digits. */
  function HexToWord(t: Text): bv32
    requires |t| == 8 && AllHex(t)
  {
    Join(Join(Join(Join(Join(Join(Join(HexValue(t[0]), HexValue(t[1])), HexValue(t[2])), HexValue(t[3])),
                        HexValue(t[4])), HexValue(t[5])), HexValue(t[6])), HexValue(t[7]))
  }

  lemma NibblesJoin(x: bv32)
    ensures Join(Join(Join(Join(Join(Join(Join(Nibble(x, 0), Nibble(x, 1)), Nibble(x, 2)), Nibble(x, 3)),
                                Nibble(x, 4)), Nibble(x, 5)), Nibble(x, 6)), Nibble(x, 7)) == x
  {
  }

  lemma Hex8RoundTrip(x: bv32)
    ensures AllHex(Hex8(x)) && HexToWord(Hex8(x)) == x
  {
    hide Nibble, Join, HexChar, HexValue;
    forall i: nat | i < 8 ensures IsHex(Hex8(x)[i]) && HexValue(Hex8(x)[i]) == Nibble(x, i) {
      HexRoundTrip(Nibble(x, i));
    }
    NibblesJoin(x);
  }

  /** simhashHex. */
  function Print(s: Sketch): (t: Text)
    ensures |t| == 16
  {
    Hex8(s.hi) + Hex8(s.lo)
  }

  function SimhashHex(canonical: Text, tokens: seq<Text>): Text {
    Print(SketchOf(canonical, tokens))
  }

  function WordDistance(a: Text, b: Text): nat
    requires |a| == 8 && |b| == 8 && AllHex(a) && AllHex(b)
  {
    Popcount(HexToWord(a) ^ HexToWord(b)) as nat
  }

  /** hammingHex: minus one unless both sides have sixteen digits. */
  function HammingHex(a: Text, b: Text): int
    requires AllHex(a) && AllHex(b)
  {
    if |a| != 16 || |b| != 16 then -1
    else WordDistance(a[..8], b[..8]) + WordDistance(a[8..], b[8..])
  }

  /** The positions in which two sketches differ, counted. */
  ghost function Distance(a: Sketch, b: Sketch): nat {
    |Differing(a.hi, b.hi)| + |Differing(a.lo, b.lo)|
  }

  lemma HalvesOf(a: Text, b: Text)
    requires |a| == 8 && |b| == 8 && AllHex(a) && AllHex(b)
    ensures AllHex(a + b) && (a + b)[..8] == a && (a + b)[8..] == b
  {
    hide IsHex;
  }

  lemma PrintSplits(s: Sketch)
    ensures AllHex(Print(s)) && Print(s)[..8] == Hex8(s.hi) && Print(s)[8..] == Hex8(s.lo)
  {
    hide HexChar, IsHex, Hex8;
    Hex8RoundTrip(s.hi);
    Hex8RoundTrip(s.lo);
    HalvesOf(Hex8(s.hi), Hex8(s.lo));
  }

  /** The distance of two printed sketches is the number of bits in which they differ. */
  lemma HammingIsDistance(a: Sketch, b: Sketch)
    ensures AllHex(Print(a)) && AllHex(Print(b)) && HammingHex(Print(a), Print(b)) == Distance(a, b)
  {
    hide Hex8, HexToWord, Popcount, Differing, AllHex, Print;
    PrintSplits(a);
    PrintSplits(b);
    Hex8RoundTrip(a.hi);
    Hex8RoundTrip(a.lo);
    Hex8RoundTrip(b.hi);
    Hex8RoundTrip(b.lo);
    PopcountOfXor(a.hi, b.hi);
    PopcountOfXor(a.lo, b.lo);
  }

  lemma WordTriangle(a: bv32, b: bv32, c: bv32)
    ensures |Differing(a, c)| <= |Differing(a, b)| + |Differing(b, c)|
  {
    hide Bit;
    assert Differing(a, c) <= Differing(a, b) + Differing(b, c);
    Smaller(Differing(a, c), Differing(a, b) + Differing(b, c));
    assert |Differing(a, b) + Differing(b, c)| <= |Differing(a, b)| + |Differing(b, c)|;
  }

  lemma Smaller(s: set<nat>, t: set<nat>)
    requires s <= t
    ensures |s| <= |t|
  {
    assert t == s + (t - s);
  }

  lemma WordSymmetric(a: bv32, b: bv32)
    ensures Differing(a, b) == Differing(b, a)
  {
    hide Bit;
  }

  lemma WordSeparates(a: bv32, b: bv32)
    ensures |Differing(a, b)| == 0 <==> a == b
  {
    hide Bit;
    if Differing(a, b) == {} {
      NoDifference(a, b);
    }
  }

  /** A metric of at most 64 on sketches. */
  lemma DistanceIsMetric(a: Sketch, b: Sketch, c: Sketch)
    ensures Distance(a, b) <= 64
    ensures Distance(a, b) == 0 <==> a == b
    ensures Distance(a, b) == Distance(b, a)
    ensures Distance(a, c) <= Distance(a, b) + Distance(b, c)
  {
    hide Differing;
    DifferingBounded(a.hi, b.hi);
    DifferingBounded(a.lo, b.lo);
    WordSeparates(a.hi, b.hi);
    WordSeparates(a.lo, b.lo);
    WordSymmetric(a.hi, b.hi);
    WordSymmetric(a.lo, b.lo);
    WordTriangle(a.hi, b.hi, c.hi);
    WordTriangle(a.lo, b.lo, c.lo);
  }

  // ---- the memo ----

  /** SHA-256 of a canonical text, identified with the text: an injective name. */
  datatype ItemHash = Sha256(of: Text)

  datatype Memoized = Memoized(key: ItemHash, sketch: Text)

  function FindKey(memo: seq<Memoized>, key: ItemHash): (i: nat)
    ensures i <= |memo| && (i < |memo| ==> memo[i].key == key) && forall j :: 0 <= j < i ==> memo[j].key != key
  {
    if memo == [] || memo[0].key == key then 0 else 1 + FindKey(memo[1..], key)
  }

  /** The memo after a lookup: the entry moves to the young end, a full memo loses its oldest. */
  function Touched(memo: seq<Memoized>, key: ItemHash, sketch: Text): seq<Memoized> {
    var i := FindKey(memo, key);
    if i < |memo| then memo[..i] + memo[i + 1..] + [memo[i]]
    else (if |memo| >= SKETCH_MEMO_CAP then memo[1..] else memo) + [Memoized(key, sketch)]
  }

  /** Bounded, one entry per key, and every entry is what computing the sketch afresh gives. */
  ghost predicate MemoOk(memo: seq<Memoized>, words: Text -> seq<Text>) {
    && |memo| <= SKETCH_MEMO_CAP
    && (forall i, j :: 0 <= i < j < |memo| ==> memo[i].key != memo[j].key)
    && (forall i :: 0 <= i < |memo| ==> memo[i].sketch == SimhashHex(memo[i].key.of, words(memo[i].key.of)))
  }

  lemma HitMoves(memo: seq<Memoized>, words: Text -> seq<Text>, i: nat)
    requires MemoOk(memo, words) && i < |memo|
    ensures MemoOk(memo[..i] + memo[i + 1..] + [memo[i]], words)
  {
    hide SimhashHex;
    var r := memo[..i] + memo[i + 1..] + [memo[i]];
    forall k | 0 <= k < |r| ensures r[k] == memo[if k < i then k else if k == |memo| - 1 then i else k + 1] {
    }
  }

  lemma MissAppends(memo: seq<Memoized>, words: Text -> seq<Text>, m: Memoized)
    requires MemoOk(memo, words) && FindKey(memo, m.key) == |memo| && m.sketch == SimhashHex(m.key.of, words(m.key.of))
    ensures MemoOk((if |memo| >= SKETCH_MEMO_CAP then memo[1..] else memo) + [m], words)
  {
    hide SimhashHex;
  }

  lemma TouchKeeps(memo: seq<Memoized>, words: Text -> seq<Text>, key: ItemHash, sketch: Text)
    requires MemoOk(memo, words) && sketch == SimhashHex(key.of, words(key.of))
    ensures MemoOk(Touched(memo, key, sketch), words)
    ensures FindKey(memo, key) < |memo| ==> memo[FindKey(memo, key)].sketch == sketch
  {
    hide SimhashHex;
    if FindKey(memo, key) < |memo| {
      HitMoves(memo, words, FindKey(memo, key));
    } else {
      MissAppends(memo, words, Memoized(key, sketch));
    }
  }

  class SketchMemo {
    /** The word runs of a text; the Unicode pattern behind it is not modelled. */
    const words: Text -> seq<Text>
    var memo: seq<Memoized>

    ghost predicate Valid()
      reads this
    {
      MemoOk(memo, words)
    }

    constructor (tokenizer: Text -> seq<Text>)
      ensures Valid() && memo == [] && words == tokenizer
    {
      words, memo := tokenizer, [];
    }

    /** sketchForCanonical: what it returns is always what computing the sketch afresh would give. */
    method SketchForCanonical(canonical: Text, itemHash: Option<ItemHash>) returns (r: Text)
      requires Valid() && (itemHash.Some? ==> itemHash.value == Sha256(canonical))
      modifies this`memo
      ensures Valid() && r == SimhashHex(canonical, words(canonical))
      ensures memo == Touched(old(memo), Sha256(canonical), r)
    {
      hide SimhashHex, MemoOk;
      var key := if itemHash.Some? then itemHash.value else Sha256(canonical);
      var i := FindKey(memo, key);
      if i < |memo| {
        var hit := memo[i];
        memo := memo[..i] + memo[i + 1..];
        memo := memo + [hit];
        TouchKeeps(old(memo), words, key, SimhashHex(canonical, words(canonical)));
        return hit.sketch;
      }
      var sketch := ComputeSketch(canonical, words(canonical));
      r := Print(sketch);
      PrintedSketch(canonical, words(canonical));
      if |memo| >= SKETCH_MEMO_CAP {
        memo := memo[1..];
      }
      memo := memo + [Memoized(key, r)];
      TouchKeeps(old(memo), words, key, r);
    }
  }

  lemma PrintedSketch(canonical: Text, tokens: seq<Text>)
    ensures SimhashHex(canonical, tokens) == Print(SketchOf(canonical, tokens))
  {
  }
}
