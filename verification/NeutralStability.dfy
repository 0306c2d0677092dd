/** Appending messages disturbs at most the last turn, and exactly when it does more than that. */
module NeutralStability {
  import opened Texts
  import opened Json
  import opened Names
  import opened Neutral

  /** Messages that join a pending assistant run instead of ending it. */
  predicate Joins(m: Json) {
    IsObject(m) &&
    if HasParts(m) then GoogleRole(m) == ASSISTANT
    else if IsFunctionCall(m) then true
    else if IsFunctionOutput(m) then false
    else RoleOf(m, UNKNOWN_ROLE) == ASSISTANT && (IsPlain(m) || HasBlocks(m) || HasToolCalls(m))
  }

  /** What a pending run may become: text, calls and fragments only grow at the end. */
  predicate Grows(p: Pending, q: Pending) {
    p.text <= q.text && p.calls <= q.calls && p.frags <= q.frags
  }

  lemma MergeGrows(st: State, text: Text, calls: seq<Text>)
    ensures var r := Merge(st, text, calls);
      && r.turns == st.turns && r.pending.Some?
      && (st.pending.Some? ==> Grows(st.pending.value, r.pending.value))
  {
  }

  lemma {:induction false} PushToolsGrows(st: State, bodies: seq<Text>)
    ensures st.turns <= PushTools(st, bodies).turns && PushTools(st, bodies).pending == st.pending
    decreases |bodies|
  {
    if bodies != [] {
      PushToolsGrows(Push(st, TextTurn(TOOL, bodies[0])), bodies[1..]);
    }
  }

  lemma PushTextGrows(st: State, kind: Text, text: Text)
    ensures st.turns <= PushText(st, kind, text).turns && PushText(st, kind, text).pending == st.pending
  {
    hide ClientMarker;
  }

  /** A message that joins keeps the turns and grows the run; any other object flushes it first. */
  lemma StepOnRun(st: State, m: Json, parse: Text -> Option<Json>)
    requires IsObject(m)
    ensures Joins(m) ==>
      var r := Step(st, m, parse);
      && st.turns <= r.turns
      && (st.pending.Some? ==> r.turns == st.turns && r.pending.Some? && Grows(st.pending.value, r.pending.value))
    ensures !Joins(m) ==> Flush(st).turns <= Step(st, m, parse).turns
  {
    hide Merge, ReadParts, ReadBlocks, CanonicalCallArgs, ToolCalls, ToolResultText, PushText, PushTools, Get, RunTurn;
    hide Neutral.Canon, StrOf, Concat;
    if Joins(m) {
      forall text, calls ensures
        && Merge(st, text, calls).turns == st.turns && Merge(st, text, calls).pending.Some?
        && (st.pending.Some? ==> Grows(st.pending.value, Merge(st, text, calls).pending.value))
      {
        MergeGrows(st, text, calls);
      }
    } else if HasParts(m) {
      GoogleFlushes(st, m);
    } else if HasBlocks(m) && RoleOf(m, UNKNOWN_ROLE) != ASSISTANT {
      BlocksFlush(st, m, RoleOf(m, UNKNOWN_ROLE), parse);
    } else {
      var role := RoleOf(m, UNKNOWN_ROLE);
      forall text ensures Flush(st).turns <= PushText(Flush(st), role, text).turns {
        PushTextGrows(Flush(st), role, text);
      }
    }
  }

  lemma GoogleFlushes(st: State, m: Json)
    requires HasParts(m) && GoogleRole(m) != ASSISTANT
    ensures Flush(st).turns <= StepGoogle(st, m).turns
  {
    hide Get, ReadParts, PushText, Concat;
    var s1 := Flush(st);
    var ps := ReadParts(Get(m, PARTS).value.elems);
    var s2 := if ps.toolBody.Some? then Push(s1, TextTurn(TOOL, ps.toolBody.value)) else s1;
    PushTextGrows(s2, GoogleRole(m), Concat(ps.texts));
  }

  lemma BlocksFlush(st: State, m: Json, role: Text, parse: Text -> Option<Json>)
    requires HasBlocks(m) && role != ASSISTANT
    ensures Flush(st).turns <= StepBlocks(st, m, role, parse).turns
  {
    hide Get, ReadBlocks, PushText, PushTools, Concat, Neutral.Canon;
    var content := Get(m, CONTENT).value;
    var bs := ReadBlocks(content.elems, parse);
    var s1 := PushTools(Flush(st), bs.results);
    PushToolsGrows(Flush(st), bs.results);
    PushTextGrows(s1, USER, Concat(bs.texts));
    PushTextGrows(s1, role, Concat(bs.texts));
    PushTextGrows(s1, USER, Neutral.Canon(content));
  }

  /** No step takes a turn back. */
  lemma StepKeepsTurns(st: State, m: Json, parse: Text -> Option<Json>)
    ensures st.turns <= Step(st, m, parse).turns
  {
    if IsObject(m) {
      hide Step;
      StepOnRun(st, m, parse);
    }
  }

  lemma {:induction false} RunKeepsTurns(st: State, list: seq<Json>, parse: Text -> Option<Json>)
    ensures st.turns <= Run(st, list, parse).turns
    decreases |list|
  {
    hide Step;
    if list != [] {
      StepKeepsTurns(st, list[0], parse);
      RunKeepsTurns(Step(st, list[0], parse), list[1..], parse);
    }
  }

  // ---- the theorem ----

  /** A non-object entry reached before anything flushes the run. */
  predicate RawInterrupts(suffix: seq<Json>) {
    suffix != [] && (!IsObject(suffix[0]) || (Joins(suffix[0]) && RawInterrupts(suffix[1..])))
  }

  /** The same turn, or an assistant turn grown at its end. */
  predicate SameOrGrown(a: Turn, b: Turn) {
    a == b || (
      && a.kind == ASSISTANT && b.kind == ASSISTANT && a.frags <= b.frags
      && (a.calls.Some? ==> b.calls.Some? && a.calls.value <= b.calls.value)
      && (a.calls.None? && b.calls.None? && a.text.Some? ==> b.text.Some? && a.text.value <= b.text.value))
  }

  /** Every old turn but the last stays where it was; the last stays or grows. */
  predicate AtMostTailMoved(before: seq<Turn>, after: seq<Turn>) {
    before == [] || (
      && |before| <= |after|
      && before[..|before| - 1] == after[..|before| - 1]
      && SameOrGrown(before[|before| - 1], after[|before| - 1]))
  }

  lemma RunTurnGrows(p: Pending, q: Pending)
    requires Grows(p, q)
    ensures SameOrGrown(RunTurn(p), RunTurn(q))
  {
    assert Take(p.frags) <= Take(q.frags);
  }

  /** Continuing from a pending run: its turn lands at the next index, grown, unless a raw entry gets there first. */
  lemma {:induction false} ContinueRun(st: State, suffix: seq<Json>, parse: Text -> Option<Json>)
    requires st.pending.Some?
    ensures var end := Flush(Run(st, suffix, parse)).turns;
      && |end| > |st.turns| && st.turns <= end
      && (!RawInterrupts(suffix) ==> SameOrGrown(RunTurn(st.pending.value), end[|st.turns|]))
      && (RawInterrupts(suffix) ==> end[|st.turns|].kind == RAW)
    decreases |suffix|
  {
    hide Step, RunTurn;
    if suffix == [] {
      RunTurnGrows(st.pending.value, st.pending.value);
    } else {
      ContinueStep(st, suffix, parse);
    }
  }

  lemma {:induction false} ContinueStep(st: State, suffix: seq<Json>, parse: Text -> Option<Json>)
    requires st.pending.Some? && suffix != []
    ensures var end := Flush(Run(st, suffix, parse)).turns;
      && |end| > |st.turns| && st.turns <= end
      && (!RawInterrupts(suffix) ==> SameOrGrown(RunTurn(st.pending.value), end[|st.turns|]))
      && (RawInterrupts(suffix) ==> end[|st.turns|].kind == RAW)
    decreases |suffix|, 0
  {
    hide RunTurn, SameOrGrown;
    var m, next := suffix[0], Step(st, suffix[0], parse);
    var last := Run(next, suffix[1..], parse);
    RunKeepsTurns(next, suffix[1..], parse);
    assert last.turns <= Flush(last).turns;
    if !IsObject(m) {
      assert next.turns[|st.turns|].kind == RAW;
    } else {
      hide Step;
      StepOnRun(st, m, parse);
      if Joins(m) {
        ContinueRun(next, suffix[1..], parse);
        RunTurnGrows(st.pending.value, next.pending.value);
        GrownTwice(st, next, Flush(last).turns);
      } else {
        assert Flush(st).turns[|st.turns|] == RunTurn(st.pending.value);
        RunTurnGrows(st.pending.value, st.pending.value);
      }
    }
  }

  lemma GrownTwice(st: State, next: State, end: seq<Turn>)
    requires st.pending.Some? && next.pending.Some? && next.turns == st.turns && |end| > |st.turns|
    requires Grows(st.pending.value, next.pending.value)
    ensures SameOrGrown(RunTurn(next.pending.value), end[|st.turns|]) ==>
            SameOrGrown(RunTurn(st.pending.value), end[|st.turns|])
  {
    RunTurnGrows(st.pending.value, next.pending.value);
  }

  lemma {:induction false} SystemRunIs(messages: seq<Json>, n: nat)
    requires n <= |messages| && (n < |messages| ==> !IsSystem(messages[n]))
    requires forall i :: 0 <= i < n ==> IsSystem(messages[i])
    ensures SystemRun(messages) == n
  {
    hide IsSystem;
  }

  lemma EndStateAppend(messages: seq<Json>, suffix: seq<Json>, parse: Text -> Option<Json>)
    ensures SystemRun(messages) == |messages| ==> EndState(messages, parse) == Start
    ensures SystemRun(messages) < |messages| ==>
      EndState(messages + suffix, parse) == Run(EndState(messages, parse), suffix, parse)
  {
    hide IsSystem, Run;
    var n := SystemRun(messages);
    if n < |messages| {
      SystemRunIs(messages + suffix, n);
      assert (messages + suffix)[n..] == messages[n..] + suffix;
      RunAppend(Start, messages[n..], suffix, parse);
    } else {
      assert messages[n..] == [];
      RunNone(parse);
    }
  }

  lemma RunNone(parse: Text -> Option<Json>)
    ensures Run(Start, [], parse) == Start
  {
  }

  /** Is a run pending after the message, given whether one was before? A lone function call starts none. */
  predicate PendingAfter(m: Json, pending: bool) {
    if !IsObject(m) then pending
    else if !Joins(m) then false
    else pending || HasParts(m) || !IsFunctionCall(m)
  }

  /** The list ends inside an assistant run. */
  predicate EndsInRun(messages: seq<Json>) {
    messages != [] && PendingAfter(messages[|messages| - 1], EndsInRun(messages[..|messages| - 1]))
  }

  /** Parts of the assistant join its run, parts of anybody else end it. */
  lemma GooglePending(st: State, m: Json)
    requires HasParts(m)
    ensures StepGoogle(st, m).pending.Some? <==> GoogleRole(m) == ASSISTANT
  {
    hide ReadParts, PushText, Get, RunTurn, Concat, GoogleRole, Neutral.Canon;
    forall s: State, kind, text ensures PushText(s, kind, text).pending == s.pending {
      PushTextGrows(s, kind, text);
    }
  }

  lemma BlocksPending(st: State, m: Json, role: Text, parse: Text -> Option<Json>)
    requires HasBlocks(m)
    ensures StepBlocks(st, m, role, parse).pending.Some? <==> role == ASSISTANT
  {
    hide ReadBlocks, PushText, PushTools, Get, RunTurn, Concat, Neutral.Canon;
    forall s: State, kind, text ensures PushText(s, kind, text).pending == s.pending {
      PushTextGrows(s, kind, text);
    }
    forall s: State, bodies ensures PushTools(s, bodies).pending == s.pending {
      PushToolsGrows(s, bodies);
    }
  }

  lemma PlainPending(st: State, m: Json, role: Text)
    ensures StepPlain(st, m, role).pending.Some? <==> role == ASSISTANT
  {
    hide PushText, Get, RunTurn, StrOf;
    forall s: State, kind, text ensures PushText(s, kind, text).pending == s.pending {
      PushTextGrows(s, kind, text);
    }
  }

  lemma StepPending(st: State, m: Json, parse: Text -> Option<Json>)
    ensures Step(st, m, parse).pending.Some? <==> PendingAfter(m, st.pending.Some?)
  {
    hide CanonicalCallArgs, ToolCalls, ToolResultText, Get, RunTurn, Neutral.Canon, StrOf;
    hide StepGoogle, StepBlocks, StepPlain, GoogleRole, HasParts, HasBlocks, IsPlain, HasToolCalls;
    if HasParts(m) {
      GooglePending(st, m);
    } else {
      var role := RoleOf(m, UNKNOWN_ROLE);
      PlainPending(st, m, role);
      if HasBlocks(m) {
        BlocksPending(st, m, role, parse);
      }
    }
  }

  /** One more message is one more step, unless it still belongs to the leading system run. */
  lemma EndStateLast(before: seq<Json>, last: Json, parse: Text -> Option<Json>)
    ensures EndState(before + [last], parse) ==
      if SystemRun(before) == |before| && IsSystem(last) then Start else Step(EndState(before, parse), last, parse)
  {
    hide Step, IsSystem;
    EndStateAppend(before, [last], parse);
    RunOne(EndState(before, parse), last, parse);
    if SystemRun(before) == |before| {
      var messages := before + [last];
      if IsSystem(last) {
        SystemRunIs(messages, |messages|);
        EndStateAppend(messages, [], parse);
      } else {
        SystemRunIs(messages, |before|);
        assert messages[|before|..] == [last];
      }
    }
  }

  lemma EndsAfterLast(messages: seq<Json>)
    requires messages != []
    ensures EndsInRun(messages) <==> PendingAfter(messages[|messages| - 1], EndsInRun(messages[..|messages| - 1]))
  {
    hide PendingAfter;
  }

  lemma NothingPending()
    ensures Start.pending.None?
  {
  }

  lemma {:induction false} PendingIsEndsInRun(messages: seq<Json>, parse: Text -> Option<Json>)
    ensures EndState(messages, parse).pending.Some? <==> EndsInRun(messages)
  {
    if messages == [] {
      EndStateAppend([], [], parse);
    } else {
      hide Step, IsSystem, EndState, PendingAfter, SystemRun, EndsInRun;
      var last, before := messages[|messages| - 1], messages[..|messages| - 1];
      assert messages == before + [last];
      PendingIsEndsInRun(before, parse);
      EndsAfterLast(messages);
      EndStateLast(before, last, parse);
      StepPending(EndState(before, parse), last, parse);
      if SystemRun(before) == |before| && IsSystem(last) {
        SystemNeverStarts(last);
        SystemEndsIdle(before, parse);
        NothingPending();
      }
    }
  }

  lemma SystemEndsIdle(messages: seq<Json>, parse: Text -> Option<Json>)
    requires SystemRun(messages) == |messages|
    ensures EndState(messages, parse).pending.None?
  {
    EndStateAppend(messages, [], parse);
  }

  lemma SystemNeverStarts(m: Json)
    requires IsSystem(m)
    ensures !PendingAfter(m, false)
  {
    hide Get;
    assert DEVELOPER[0] == 100 && ASSISTANT[0] == 97;
  }

  /**
   * Appending any messages leaves every turn but the last in place and lets the last only grow at its end,
   * exactly unless the list ends inside an assistant run and a non-object entry follows before anything
   * flushes that run.
   */
  lemma AppendMovesAtMostTail(messages: seq<Json>, suffix: seq<Json>, parse: Text -> Option<Json>)
    ensures AtMostTailMoved(Project(messages, parse), Project(messages + suffix, parse)) <==>
            !(EndsInRun(messages) && RawInterrupts(suffix))
  {
    hide Run, Step, RunTurn, SameOrGrown, RawInterrupts, EndsInRun, SystemRun;
    EndStateAppend(messages, suffix, parse);
    PendingIsEndsInRun(messages, parse);
    if SystemRun(messages) < |messages| {
      var st := EndState(messages, parse);
      var end := Run(st, suffix, parse);
      RunKeepsTurns(st, suffix, parse);
      assert end.turns <= Flush(end).turns;
      if st.pending.Some? {
        ContinueRun(st, suffix, parse);
        RawIsNoGrowth(st.pending.value, Flush(end).turns[|st.turns|]);
        var before := Flush(st).turns;
        assert before[..|before| - 1] == st.turns;
      } else {
        SameTurns(st.turns, Flush(end).turns);
      }
    }
  }

  function Said(text: Text): Json {
    Obj([Field(ROLE, Str(ASSISTANT)), Field(CONTENT, Str(text))])
  }

  lemma SaidJoins(text: Text)
    ensures Joins(Said(text)) && !IsFunctionCall(Said(text))
  {
    assert ROLE[0] == 114 && CONTENT[0] == 99 && PARTS[0] == 112 && TYPE[0] == 116 && TOOL_CALLS[0] == 116;
    var fs := Said(text).fields;
    KeyIndexIs(fs, ROLE, 0);
    KeyIndexIs(fs, CONTENT, 1);
    KeyIndexIs(fs, PARTS, 2);
    KeyIndexIs(fs, TYPE, 2);
    KeyIndexIs(fs, TOOL_CALLS, 2);
  }

  /** A null entry after an assistant message: the raw turn takes the place of the assistant's. */
  lemma RawEntryMovesTail(text: Text, parse: Text -> Option<Json>)
    ensures !AtMostTailMoved(Project([Said(text)], parse), Project([Said(text)] + [Null], parse))
  {
    hide AtMostTailMoved, Project, Joins, IsFunctionCall, Said;
    SaidJoins(text);
    assert [Said(text)][..0] == [];
    assert EndsInRun([Said(text)]) && RawInterrupts([Null]);
    AppendMovesAtMostTail([Said(text)], [Null], parse);
  }

  lemma RawIsNoGrowth(p: Pending, t: Turn)
    ensures t.kind == RAW ==> !SameOrGrown(RunTurn(p), t)
  {
    assert RAW[0] == 114 && ASSISTANT[0] == 97;
  }

  lemma SameTurns(a: seq<Turn>, b: seq<Turn>)
    requires a <= b
    ensures AtMostTailMoved(a, b)
  {
  }
}
