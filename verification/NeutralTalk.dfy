/** The turns a conversation projects to, on each of the four wires, told by what each message contributes. */
module NeutralTalk {
  import opened Texts
  import opened Seqs
  import opened Json
  import opened Printing
  import opened Names
  import opened Neutral
  import opened NeutralWires

  // ---- what a message contributes ----

  /**
   * Tells is a turn of its own; Breaks only ends an assistant run; Adds joins or opens a run; Calls joins an
   * open run and is a turn of its own otherwise.
   */
  datatype Move = Tells(kind: Text, text: Text) | Breaks | Adds(text: Text, calls: seq<Text>) | Calls(call: Text)

  predicate OfRun(m: Move) {
    m.Adds? || m.Calls?
  }

  /** [model changed: ...] with no closing bracket inside: a notice of the client, not the user's words. */
  predicate Notice(t: Text) {
    && |t| >= 17 && Lit("[model changed: ") <= t && t[|t| - 1] == ']' as int
    && forall i :: 16 <= i < |t| - 1 ==> t[i] != ']' as int
  }

  function RunLength(ms: seq<Move>): (k: nat)
    ensures k <= |ms|
  {
    if ms == [] || !OfRun(ms[0]) then 0 else 1 + RunLength(ms[1..])
  }

  function WordsOf(run: seq<Move>): Text {
    if run == [] then [] else (if run[0].Adds? then run[0].text else []) + WordsOf(run[1..])
  }

  function CallsIn(run: seq<Move>): seq<Text> {
    if run == [] then []
    else (match run[0] case Adds(_, calls) => calls case Calls(call) => [call] case _ => []) + CallsIn(run[1..])
  }

  function FragOf(m: Move): Frag {
    match m
    case Adds(text, calls) => Frag(Lit("assistant"), text, calls)
    case Calls(call) => Frag(Lit("assistant"), [], [call])
    case Tells(kind, text) => Frag(kind, text, [])
    case Breaks => Frag([], [], [])
  }

  function FragsOf(run: seq<Move>): seq<Frag> {
    if run == [] then [] else [FragOf(run[0])] + FragsOf(run[1..])
  }

  /** One assistant turn: its calls in order when it has any, else all its words; one fragment a message, 64 at most. */
  function RunOfMoves(words: Text, calls: seq<Text>, frags: seq<Frag>): Turn {
    var kept := if |frags| <= 64 then frags else frags[..64];
    if calls == [] then Turn(Lit("assistant"), Some(words), None, kept) else Turn(Lit("assistant"), None, Some(calls), kept)
  }

  /** The turns of a sequence of contributions. */
  function Spoken(ms: seq<Move>): seq<Turn>
    decreases |ms|
  {
    if ms == [] then []
    else
      match ms[0]
      case Tells(kind, text) =>
        (if kind == Lit("user") && Notice(text) then [] else [Turn(kind, Some(text), None, [Frag(kind, text, [])])])
        + Spoken(ms[1..])
      case Breaks => Spoken(ms[1..])
      case Calls(call) => [Turn(Lit("assistant"), None, Some([call]), [FragOf(ms[0])])] + Spoken(ms[1..])
      case Adds(_, _) =>
        var k := RunLength(ms);
        var run := ms[..k];
        assert k > 0;
        [RunOfMoves(WordsOf(run), CallsIn(run), FragsOf(run))] + Spoken(ms[k..])
  }

  // ---- the projection does just that ----

  function Do(st: State, m: Move): State {
    match m
    case Tells(kind, text) => PushText(Flush(st), kind, text)
    case Breaks => Flush(st)
    case Adds(text, calls) => Merge(st, text, calls)
    case Calls(call) =>
      if st.pending.Some? then Merge(st, [], [call])
      else Push(st, Turn(ASSISTANT, None, Some([call]), [Frag(ASSISTANT, [], [call])]))
  }

  function DoAll(st: State, ms: seq<Move>): State
    decreases |ms|
  {
    if ms == [] then st else DoAll(Do(st, ms[0]), ms[1..])
  }

  /** The run a state has open, with the moves of a run behind it. */
  function Extended(p: Pending, run: seq<Move>): Turn {
    RunOfMoves(p.text + WordsOf(run), p.calls + CallsIn(run), p.frags + FragsOf(run))
  }

  function SpokenFrom(p: Option<Pending>, ms: seq<Move>): seq<Turn> {
    match p
    case None => Spoken(ms)
    case Some(p) => var k := RunLength(ms); [Extended(p, ms[..k])] + Spoken(ms[k..])
  }

  lemma NoticeIsMarker(t: Text)
    ensures Notice(t) <==> ClientMarker(t)
  {
  }

  lemma RunIs(p: Pending)
    ensures RunTurn(p) == Extended(p, [])
  {
    Spelling();
    assert p.text + [] == p.text && p.calls + [] == p.calls && p.frags + [] == p.frags;
  }

  lemma ExtendedStep(p: Pending, m: Move, run: seq<Move>)
    requires OfRun(m)
    ensures var q :=
        if m.Adds? then Pending(p.text + m.text, p.calls + m.calls, p.frags + [Frag(ASSISTANT, m.text, m.calls)])
        else Pending(p.text + [], p.calls + [m.call], p.frags + [Frag(ASSISTANT, [], [m.call])]);
      Extended(p, [m] + run) == Extended(q, run)
  {
    Spelling();
    var all := [m] + run;
    assert all[1..] == run;
    assert p.frags + ([FragOf(m)] + FragsOf(run)) == (p.frags + [FragOf(m)]) + FragsOf(run);
    if m.Adds? {
      assert p.text + (m.text + WordsOf(run)) == (p.text + m.text) + WordsOf(run);
      assert p.calls + (m.calls + CallsIn(run)) == (p.calls + m.calls) + CallsIn(run);
    } else {
      assert p.text + ([] + WordsOf(run)) == (p.text + []) + WordsOf(run);
      assert p.calls + ([m.call] + CallsIn(run)) == (p.calls + [m.call]) + CallsIn(run);
    }
  }

  lemma RunLengthStep(ms: seq<Move>)
    requires ms != [] && OfRun(ms[0])
    ensures var k := RunLength(ms[1..]);
      && RunLength(ms) == k + 1 && ms[..k + 1] == [ms[0]] + ms[1..][..k] && ms[k + 1..] == ms[1..][k..]
  {
  }

  lemma OpenRunGoesOn(p: Pending, ms: seq<Move>, q: Pending)
    requires ms != [] && OfRun(ms[0])
    requires var m := ms[0];
      q == if m.Adds? then Pending(p.text + m.text, p.calls + m.calls, p.frags + [Frag(ASSISTANT, m.text, m.calls)])
           else Pending(p.text + [], p.calls + [m.call], p.frags + [Frag(ASSISTANT, [], [m.call])])
    ensures SpokenFrom(Some(p), ms) == SpokenFrom(Some(q), ms[1..])
  {
    hide Extended, Spoken, RunLength;
    RunLengthStep(ms);
    var k := RunLength(ms[1..]);
    ExtendedStep(p, ms[0], ms[1..][..k]);
  }

  lemma FreshRun(ms: seq<Move>)
    requires ms != [] && ms[0].Adds?
    ensures Spoken(ms) == SpokenFrom(Some(Pending([], [], [])), ms)
  {
    hide RunOfMoves;
    var run := ms[..RunLength(ms)];
    assert [] + WordsOf(run) == WordsOf(run) && [] + CallsIn(run) == CallsIn(run) && [] + FragsOf(run) == FragsOf(run);
  }

  lemma ClosedRun(p: Pending, ms: seq<Move>)
    requires ms == [] || !OfRun(ms[0])
    ensures SpokenFrom(Some(p), ms) == [RunTurn(p)] + Spoken(ms)
  {
    hide Extended, Spoken;
    RunIs(p);
    assert ms[..0] == [] && ms[0..] == ms;
  }

  /** After any state the loop leaves, what follows adds exactly its turns. */
  lemma {:induction false} DoSpeaks(st: State, ms: seq<Move>)
    ensures Flush(DoAll(st, ms)).turns == st.turns + SpokenFrom(st.pending, ms)
    decreases |ms|
  {
    hide Spoken, Extended, RunTurn, SpokenFrom, ClientMarker, Notice;
    if ms == [] {
      NothingSpoken(st);
    } else {
      var next := Do(st, ms[0]);
      DoSpeaks(next, ms[1..]);
      MoveSpeaks(st, ms);
    }
  }

  lemma NothingSpoken(st: State)
    ensures Flush(st).turns == st.turns + SpokenFrom(st.pending, [])
  {
    match st.pending
    case None => assert st.turns + [] == st.turns;
    case Some(p) =>
      ClosedRun(p, []);
      assert [RunTurn(p)] + [] == [RunTurn(p)];
  }

  /** One move, with everything behind it. */
  lemma MoveSpeaks(st: State, ms: seq<Move>)
    requires ms != []
    ensures var next := Do(st, ms[0]);
      next.turns + SpokenFrom(next.pending, ms[1..]) == st.turns + SpokenFrom(st.pending, ms)
  {
    if OfRun(ms[0]) {
      RunMoveSpeaks(st, ms);
    } else {
      hide Do, Spoken, SpokenFrom, Flush;
      NotInRun(st, ms);
      AloneMoveSpeaks(st, ms);
      SpokenIdle(ms[1..]);
    }
  }

  /** The turn of words told, unless they are a notice of the client. */
  function Told(kind: Text, text: Text): seq<Turn> {
    if kind == USER && ClientMarker(text) then [] else [TextTurn(kind, text)]
  }

  lemma TellingPushes(st: State, kind: Text, text: Text)
    ensures PushText(st, kind, text) == State(st.turns + Told(kind, text), st.pending)
  {
    hide ClientMarker;
    assert st.turns + [] == st.turns;
  }

  lemma TellingSpeaks(ms: seq<Move>)
    requires ms != [] && ms[0].Tells?
    ensures Spoken(ms) == Told(ms[0].kind, ms[0].text) + Spoken(ms[1..])
  {
    hide ClientMarker, Notice;
    NoticeIsMarker(ms[0].text);
    assert USER == Lit("user");
  }

  /** A move outside runs ends the open one and adds its own turn, if it makes one. */
  lemma AloneMoveSpeaks(st: State, ms: seq<Move>)
    requires ms != [] && !OfRun(ms[0])
    ensures Do(st, ms[0]).pending.None? && Do(st, ms[0]).turns + Spoken(ms[1..]) == Flush(st).turns + Spoken(ms)
  {
    if ms[0].Tells? {
      hide Told, Spoken, RunTurn, PushText;
      TellingPushes(Flush(st), ms[0].kind, ms[0].text);
      TellingSpeaks(ms);
      Associate(Flush(st).turns, Told(ms[0].kind, ms[0].text), Spoken(ms[1..]));
    } else {
      hide RunTurn, Notice;
    }
  }

  lemma SpokenIdle(ms: seq<Move>)
    ensures SpokenFrom(None, ms) == Spoken(ms)
  {
  }

  lemma NotInRun(st: State, ms: seq<Move>)
    requires ms != [] && !OfRun(ms[0])
    ensures Flush(st).turns + Spoken(ms) == st.turns + SpokenFrom(st.pending, ms)
  {
    hide Spoken, RunTurn, Extended;
    match st.pending
    case None =>
    case Some(p) =>
      ClosedRun(p, ms);
      assert (st.turns + [RunTurn(p)]) + Spoken(ms) == st.turns + ([RunTurn(p)] + Spoken(ms));
  }

  lemma RunMoveSpeaks(st: State, ms: seq<Move>)
    requires ms != [] && OfRun(ms[0])
    ensures var next := Do(st, ms[0]);
      next.turns + SpokenFrom(next.pending, ms[1..]) == st.turns + SpokenFrom(st.pending, ms)
  {
    hide Spoken, Extended, SpokenFrom;
    var next := Do(st, ms[0]);
    match st.pending
    case Some(p) => OpenRunGoesOn(p, ms, next.pending.value);
    case None =>
      SpokenIdle(ms);
      if ms[0].Adds? {
        FreshRun(ms);
        OpenRunGoesOn(Pending([], [], []), ms, next.pending.value);
      } else {
        SpokenIdle(ms[1..]);
        LoneCall(ms);
        Associate(st.turns, [Turn(ASSISTANT, None, Some([ms[0].call]), [Frag(ASSISTANT, [], [ms[0].call])])],
                  Spoken(ms[1..]));
      }
  }

  lemma LoneCall(ms: seq<Move>)
    requires ms != [] && ms[0].Calls?
    ensures Spoken(ms) == [Turn(ASSISTANT, None, Some([ms[0].call]), [Frag(ASSISTANT, [], [ms[0].call])])] + Spoken(ms[1..])
  {
    Spelling();
  }
}
