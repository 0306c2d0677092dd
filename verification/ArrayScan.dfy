/** Finding the bracket that closes the message array of a raw request body. */
module ArrayScan {
  import opened Texts
  import opened ByteCompare

  const NAMES: set<Bytes> := {Ascii("messages"), Ascii("input"), Ascii("contents")}

  function Ascii(s: string): (b: Bytes)
    requires forall i :: 0 <= i < |s| ==> s[i] as int < 128
    ensures |b| == |s| && forall i :: 0 <= i < |s| ==> b[i] == s[i] as int
  {
    seq(|s|, i requires 0 <= i < |s| => s[i] as int)
  }

  // ---- one byte at a time ----

  /**
   * Where the scanner stands: nesting depth, inside a string or not, right after an escaping backslash or not,
   * the depth at which the tracked array closes, and the bytes so far of a string that may be a top-level key.
   */
  datatype Mode = Mode(depth: int, inStr: bool, esc: bool, want: Option<int>, key: Option<Bytes>)

  const Init := Mode(0, false, false, None, None)

  predicate Opens(c: Byte) {
    c == 123 || c == 91
  }

  predicate Closes(c: Byte) {
    c == 125 || c == 93
  }

  /** What neither opens nor closes anything outside a string. */
  predicate Filler(c: Byte) {
    c != 34 && !Opens(c) && !Closes(c)
  }

  /** String content that neither ends the string nor escapes. */
  predicate Content(c: Byte) {
    c != 34 && c != 92
  }

  function SkipBlank(s: Bytes): (r: Bytes)
    ensures |r| <= |s|
  {
    if s != [] && s[0] <= 32 then SkipBlank(s[1..]) else s
  }

  /** A colon and an opening bracket come next, blanks aside. */
  predicate ArrayFollows(s: Bytes) {
    var t := SkipBlank(s);
    t != [] && t[0] == 58 && SkipBlank(t[1..]) != [] && SkipBlank(t[1..])[0] == 91
  }

  /** A string just closed: a top-level key naming the messages, with an array after it, starts the tracking. */
  function CloseString(m: Mode, rest: Bytes): Mode {
    Mode(m.depth, false, false,
         if m.key.Some? && m.depth == 1 && m.key.value in NAMES && ArrayFollows(rest) then Some(m.depth + 1) else m.want,
         None)
  }

  function Grow(m: Mode, bytes: Bytes): Mode {
    if m.key.Some? then m.(key := Some(m.key.value + bytes)) else m
  }

  /** The state after one byte, given what follows it. */
  function Next(m: Mode, c: Byte, rest: Bytes): Mode {
    if m.inStr then
      if m.esc then Grow(m, [c]).(esc := false)
      else if c == 92 then Grow(m, [c]).(esc := true)
      else if c == 34 then CloseString(m, rest)
      else Grow(m, [c])
    else if c == 34 then m.(inStr := true, key := if m.depth == 1 then Some([]) else None)
    else if Opens(c) then m.(depth := m.depth + 1)
    else if Closes(c) then m.(depth := m.depth - 1)
    else m
  }

  /** The tracked array closes here. */
  predicate Hit(m: Mode, c: Byte) {
    !m.inStr && c == 93 && m.want == Some(m.depth)
  }

  /** How many bytes are left at the closing bracket of the tracked array. */
  function Scan(s: Bytes, m: Mode): (r: Option<nat>)
    ensures r.Some? ==> 1 <= r.value <= |s|
  {
    if s == [] then None
    else if Hit(m, s[0]) then Some(|s|)
    else Scan(s[1..], Next(m, s[0], s[1..]))
  }

  /** The offset of the bracket closing the tracked array. */
  function CloseOffset(body: Bytes): Option<nat> {
    match Scan(body, Init) case Some(left) => Some(|body| - left) case None => None
  }

  // ---- hops ----

  lemma GrowTwice(m: Mode, a: Bytes, b: Bytes)
    ensures Grow(Grow(m, a), b) == Grow(m, a + b)
  {
    assert m.key.Some? ==> m.key.value + a + b == m.key.value + (a + b);
  }

  /** String content only grows the key. */
  lemma {:induction false} HopContent(p: Bytes, s: Bytes, m: Mode)
    requires m.inStr && !m.esc && forall i :: 0 <= i < |p| ==> Content(p[i])
    ensures Scan(p + s, m) == Scan(s, Grow(m, p))
  {
    if p == [] {
      assert p + s == s;
      assert m.key.Some? ==> m.key.value + [] == m.key.value;
    } else {
      assert (p + s)[1..] == p[1..] + s;
      HopContent(p[1..], s, Grow(m, [p[0]]));
      GrowTwice(m, [p[0]], p[1..]);
      assert [p[0]] + p[1..] == p;
    }
  }

  lemma {:induction false} HopFiller(p: Bytes, s: Bytes, m: Mode)
    requires !m.inStr && forall i :: 0 <= i < |p| ==> Filler(p[i])
    ensures Scan(p + s, m) == Scan(s, m)
  {
    if p == [] {
      assert p + s == s;
    } else {
      assert (p + s)[1..] == p[1..] + s;
      HopFiller(p[1..], s, m);
    }
  }

  /** A run of backslashes leaves an escape pending exactly when it is odd. */
  lemma {:induction false} HopBackslashes(p: Bytes, s: Bytes, m: Mode)
    requires m.inStr && forall i :: 0 <= i < |p| ==> p[i] == 92
    ensures Scan(p + s, m) == Scan(s, Grow(m, p).(esc := (|p| % 2 == 1) != m.esc))
  {
    if p == [] {
      assert p + s == s;
      assert m.key.Some? ==> m.key.value + [] == m.key.value;
    } else {
      assert (p + s)[1..] == p[1..] + s;
      HopBackslashes(p[1..], s, Grow(m, [p[0]]).(esc := !m.esc));
      GrowTwice(m, [p[0]], p[1..]);
      assert [p[0]] + p[1..] == p;
    }
  }

  // ---- the hop scanner ----

  /** Buffer.indexOf for one byte, with the length for "not found". */
  method IndexOf(body: Bytes, c: Byte, from: nat) returns (p: nat)
    requires from <= |body|
    ensures from <= p <= |body| && (p < |body| ==> body[p] == c)
    ensures forall k :: from <= k < p ==> body[k] != c
  {
    p := from;
    while p < |body| && body[p] != c
      invariant from <= p <= |body|
      invariant forall k :: from <= k < p ==> body[k] != c
    {
      p := p + 1;
    }
  }

  method SkipBlankFrom(body: Bytes, from: nat) returns (j: nat)
    requires from <= |body|
    ensures from <= j <= |body| && body[j..] == SkipBlank(body[from..])
  {
    j := from;
    while j < |body| && body[j] <= 32
      invariant from <= j <= |body|
      invariant SkipBlank(body[j..]) == SkipBlank(body[from..])
    {
      assert body[j..][1..] == body[j + 1..];
      j := j + 1;
    }
  }

  method FollowedByArray(body: Bytes, from: nat) returns (r: bool)
    requires from <= |body|
    ensures r <==> ArrayFollows(body[from..])
  {
    var j := SkipBlankFrom(body, from);
    if j < |body| && body[j] == 58 {
      assert body[j..][1..] == body[j + 1..];
      j := SkipBlankFrom(body, j + 1);
      return j < |body| && body[j] == 91;
    }
    return false;
  }

  /** The scanner's variables at position i stand for the mode m. */
  ghost predicate Standing(body: Bytes, i: nat, depth: int, inStr: bool, want: int, keyAt: int, m: Mode) {
    && m.depth == depth && m.inStr == inStr && !m.esc
    && m.want == (if want == -1 then None else Some(want))
    && -1 <= keyAt
    && (keyAt == -1 ==> m.key.None?)
    && (keyAt != -1 ==> keyAt < i && inStr)
    && (keyAt != -1 && i <= |body| ==> m.key == Some(body[keyAt + 1..i]))
  }

  lemma Cut(body: Bytes, i: nat, j: nat)
    requires i <= j <= |body|
    ensures body[i..] == body[i..j] + body[j..]
  {
  }

  lemma StandingGrows(body: Bytes, i: nat, e: nat, depth: int, want: int, keyAt: int, m: Mode)
    requires Standing(body, i, depth, true, want, keyAt, m) && i <= e <= |body|
    ensures Standing(body, e, depth, true, want, keyAt, Grow(m, body[i..e]))
  {
    if keyAt != -1 {
      assert body[keyAt + 1..i] + body[i..e] == body[keyAt + 1..e];
    }
  }

  /** An odd run of backslashes takes the byte after it along, an even one does not. */
  lemma RunHop(body: Bytes, i: nat, j: nat, m: Mode)
    requires m.inStr && !m.esc && i < j <= |body| && (forall k :: i <= k < j ==> body[k] == 92)
    ensures var e := if (j - i) % 2 == 1 then j + 1 else j;
      Scan(body[i..], m) == if e <= |body| then Scan(body[e..], Grow(m, body[i..e])) else None
  {
    hide Scan;
    Cut(body, i, j);
    HopBackslashes(body[i..j], body[j..], m);
    if (j - i) % 2 == 1 {
      var m1 := Grow(m, body[i..j]).(esc := true);
      if j < |body| {
        ScanOne(body, j, m1);
        GrowTwice(m, body[i..j], [body[j]]);
        assert body[i..j] + [body[j]] == body[i..j + 1];
        assert Next(m1, body[j], body[j + 1..]) == Grow(m, body[i..j + 1]);
      } else {
        ScanNone(body[j..], m1);
      }
    } else {
      assert Grow(m, body[i..j]).(esc := false) == Grow(m, body[i..j]);
    }
  }

  lemma ScanOne(body: Bytes, i: nat, m: Mode)
    requires i < |body|
    ensures Scan(body[i..], m) ==
      if Hit(m, body[i]) then Some(|body| - i) else Scan(body[i + 1..], Next(m, body[i], body[i + 1..]))
  {
    assert body[i..][1..] == body[i + 1..];
  }

  lemma ScanNone(s: Bytes, m: Mode)
    requires s == []
    ensures Scan(s, m) == None
  {
  }

  lemma FillerTo(body: Bytes, i: nat, e: nat, m: Mode)
    requires i <= e <= |body| && !m.inStr && forall k :: i <= k < e ==> Filler(body[k])
    ensures Scan(body[i..], m) == Scan(body[e..], m)
  {
    hide Scan;
    Cut(body, i, e);
    HopFiller(body[i..e], body[e..], m);
  }

  lemma ContentTo(body: Bytes, i: nat, e: nat, m: Mode)
    requires i <= e <= |body| && m.inStr && !m.esc && forall k :: i <= k < e ==> Content(body[k])
    ensures Scan(body[i..], m) == Scan(body[e..], Grow(m, body[i..e]))
  {
    hide Scan, Grow;
    Cut(body, i, e);
    HopContent(body[i..e], body[e..], m);
  }

  /**
   * messagesArrayCloseOffset: backslash runs, string content and filler are hopped over; the answer is the
   * byte-at-a-time one on every byte string.
   */
  method MessagesArrayCloseOffset(body: Bytes) returns (r: Option<nat>)
    ensures r == CloseOffset(body)
  {
    hide Scan, Grow, ArrayFollows;
    var n := |body|;
    var depth, inStr, want, keyAt := 0, false, -1, -1;
    var i := 0;
    ghost var m := Init;
    assert body[0..] == body;
    while i < n
      invariant Standing(body, i, depth, inStr, want, keyAt, m)
      invariant want == -1 || want == 2
      invariant Scan(body, Init) == if i <= n then Scan(body[i..], m) else None
    {
      var c := body[i];
      if inStr {
        if c == 92 {
          var j := i;
          while j < n && body[j] == 92
            invariant i <= j <= n
            invariant forall k :: i <= k < j ==> body[k] == 92
          {
            j := j + 1;
          }
          RunHop(body, i, j, m);
          ghost var start := i;
          i := if (j - i) % 2 == 1 then j + 1 else j;
          if i <= n {
            StandingGrows(body, start, i, depth, want, keyAt, m);
            m := Grow(m, body[start..i]);
          }
        } else if c == 34 {
          ScanOne(body, i, m);
          m := CloseString(m, body[i + 1..]);
          inStr := false;
          if keyAt >= 0 {
            var key := body[keyAt + 1..i];
            keyAt := -1;
            if depth == 1 && key in NAMES {
              var follows := FollowedByArray(body, i + 1);
              if follows {
                want := depth + 1;
              }
            }
          }
          i := i + 1;
        } else {
          var q := IndexOf(body, 34, i + 1);
          var b := IndexOf(body, 92, i + 1);
          var e := Min(q, b);
          ContentTo(body, i, e, m);
          StandingGrows(body, i, e, depth, want, keyAt, m);
          m := Grow(m, body[i..e]);
          i := e;
        }
      } else if Filler(c) {
        var e := NextStructural(body, i + 1);
        FillerTo(body, i, e, m);
        i := e;
      } else {
        ScanOne(body, i, m);
        if c == 34 {
          inStr := true;
          keyAt := if depth == 1 then i else -1;
          assert body[i + 1..i + 1] == [];
        } else if Opens(c) {
          depth := depth + 1;
        } else {
          if want != -1 && c == 93 && depth == want {
            return Some(i);
          }
          depth := depth - 1;
        }
        m := Next(m, c, body[i + 1..]);
        i := i + 1;
      }
    }
    if i == n {
      ScanNone(body[i..], m);
    }
    return None;
  }

  /** The nearest of the five indexOf results. */
  method NextStructural(body: Bytes, from: nat) returns (e: nat)
    requires from <= |body|
    ensures from <= e <= |body| && forall k :: from <= k < e ==> Filler(body[k])
  {
    var codes := [34, 123, 125, 91, 93];
    e := |body|;
    for t := 0 to 5
      invariant from <= e <= |body|
      invariant forall k, u :: from <= k < e && 0 <= u < t ==> body[k] != codes[u]
    {
      var p := IndexOf(body, codes[t], from);
      e := Min(e, p);
    }
    forall k | from <= k < e ensures Filler(body[k]) {
      assert body[k] != codes[0] && body[k] != codes[1] && body[k] != codes[2] && body[k] != codes[3];
      assert body[k] != codes[4];
    }
  }
}
