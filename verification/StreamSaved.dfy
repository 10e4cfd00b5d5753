/**
 What any stream that gets as far as returning its result returns for saving, refused ones and those whose writer failed
 included, in terms of the signals it took before it stopped. (convert/stream.go result, server/server.go)
 */
module StreamSaved {
  import opened Common
  import opened Protocol
  import opened StreamSpec
  import opened StreamHistory
  import opened StreamInvariants
  import opened StreamAccounting

  // ---------- the signals taken ----------

  /** How many signals are looked at before the stream stops: all, or up to the one at which it fails. */
  function Taken(e: Env, sigs: seq<Signal>): nat {
    if sigs == [] then 0
    else if Feed(e, Opening(e), sigs[..|sigs| - 1]).Failed() then Taken(e, sigs[..|sigs| - 1])
    else |sigs|
  }

  /** The id of a call once closed if it is among the first `m`, before that the id its fragments gave it. */
  function KnownID(e: Env, frags: seq<ToolDelta>, m: nat, i: nat): string
    requires i < |Order(frags)|
  {
    var idx := Order(frags)[i];
    if i < m then FinalID(e, CallOf(e, frags, idx), idx) else CallOf(e, frags, idx).id
  }

  /** The non-empty ids of the first `n` calls when `m` of them have been given their final id. */
  function KnownIDs(e: Env, frags: seq<ToolDelta>, m: nat, n: nat): seq<string>
    requires n <= |Order(frags)|
  {
    if n == 0 then []
    else
      var id := KnownID(e, frags, m, n - 1);
      KnownIDs(e, frags, m, n - 1) + if id != "" then [id] else []
  }

  /** The state has noted exactly these signals, and given the first `m` calls their final id. */
  ghost predicate Noted(e: Env, s: State, sigs: seq<Signal>, m: nat) {
    && s.usage == UsageOf(sigs) && s.reasoning.text == ReasoningOf(sigs) && s.message.text == TextOf(sigs)
    && s.toolOrder == Order(Fragments(sigs)) && m <= |s.toolOrder|
    && forall i: nat :: i < |s.toolOrder| ==> NotedCall(e, s, Fragments(sigs), m, i)
  }

  ghost predicate NotedCall(e: Env, s: State, frags: seq<ToolDelta>, m: nat, i: nat) {
    && i < |s.toolOrder| && i < |Order(frags)| && s.toolOrder[i] in s.tools
    && s.tools[s.toolOrder[i]].callID == KnownID(e, frags, m, i)
  }

  // ---------- one signal ----------

  /** The same notes with other events, or other marks on the items. */
  lemma SameNotes(e: Env, s: State, s1: State, sigs: seq<Signal>, m: nat)
    requires Noted(e, s, sigs, m)
    requires s1.usage == s.usage && s1.reasoning.text == s.reasoning.text && s1.message.text == s.message.text
    requires s1.toolOrder == s.toolOrder && s1.tools == s.tools
    ensures Noted(e, s1, sigs, m)
  {
    hide KnownID;
    forall i: nat | i < |s1.toolOrder| ensures NotedCall(e, s1, Fragments(sigs), m, i) {
      assert NotedCall(e, s, Fragments(sigs), m, i);
    }
  }

  /** A signal about usage, finish reason or text is noted. */
  lemma TextNoted(e: Env, s: State, s1: State, sigs: seq<Signal>, sig: Signal)
    requires Noted(e, s, sigs, 0) && !sig.ToolPiece?
    requires s1.toolOrder == s.toolOrder && s1.tools == s.tools
    requires s1.usage == if sig.SetUsage? then Some(sig.usage) else s.usage
    requires s1.reasoning.text == s.reasoning.text + if sig.ReasoningPiece? then sig.text else ""
    requires s1.message.text == s.message.text + if sig.TextPiece? then sig.text else ""
    ensures Noted(e, s1, sigs + [sig], 0)
  {
    hide KnownID;
    var more := sigs + [sig];
    assert more[..|sigs|] == sigs && more[|sigs|] == sig;
    assert Fragments(more) == Fragments(sigs);
    assert s.reasoning.text + "" == s.reasoning.text && s.message.text + "" == s.message.text;
    forall i: nat | i < |s1.toolOrder| ensures NotedCall(e, s1, Fragments(more), 0, i) {
      assert NotedCall(e, s, Fragments(sigs), 0, i);
    }
  }

  lemma PieceNoted(e: Env, s: State, sigs: seq<Signal>, d: ToolDelta)
    requires Noted(e, s, sigs, 0) && Accounted(s)
    ensures Noted(e, AppendTool(e, s, d), sigs + [ToolPiece(d)], 0)
  {
    hide AppendTool, Noted, Accounted, ToolEvents;
    var more := sigs + [ToolPiece(d)];
    var s1 := AppendTool(e, s, d);
    PieceTexts(sigs, d);
    AppendToolShape(e, s, d);
    CallsNoted(e, s, s1, sigs, d);
  }

  lemma PieceTexts(sigs: seq<Signal>, d: ToolDelta)
    ensures var more := sigs + [ToolPiece(d)];
            && Fragments(more) == Fragments(sigs) + [d] && UsageOf(more) == UsageOf(sigs)
            && ReasoningOf(more) == ReasoningOf(sigs) && TextOf(more) == TextOf(sigs)
  {
    var more := sigs + [ToolPiece(d)];
    assert more[..|sigs|] == sigs && more[|sigs|] == ToolPiece(d);
    assert ReasoningOf(sigs) + "" == ReasoningOf(sigs) && TextOf(sigs) + "" == TextOf(sigs);
  }

  lemma CallsNoted(e: Env, s: State, s1: State, sigs: seq<Signal>, d: ToolDelta)
    requires Noted(e, s, sigs, 0) && Accounted(s)
    requires var more := sigs + [ToolPiece(d)];
             && Fragments(more) == Fragments(sigs) + [d] && UsageOf(more) == UsageOf(sigs)
             && ReasoningOf(more) == ReasoningOf(sigs) && TextOf(more) == TextOf(sigs)
    requires var idx := IndexOf(d);
             && s1.tools == s.tools[idx := Announced(e, Extend(Previous(s, idx), d), idx)]
             && s1.toolOrder == (if idx in s.tools then s.toolOrder else s.toolOrder + [idx])
             && s1.usage == s.usage && s1.reasoning == s.reasoning && s1.message == s.message
    ensures Noted(e, s1, sigs + [ToolPiece(d)], 0)
  {
    hide Fragments, UsageOf, ReasoningOf, TextOf, FinalID, CallOf;
    var frags, idx := Fragments(sigs), IndexOf(d);
    OrderStep(frags, d);
    forall i: nat | i < |s1.toolOrder| ensures NotedCall(e, s1, frags + [d], 0, i) {
      var j := s1.toolOrder[i];
      CallStep(e, frags, d, j);
      if i < |s.toolOrder| {
        assert NotedCall(e, s, frags, 0, i);
      } else {
        assert j !in s.toolOrder;
        NewCall(e, frags, j);
      }
    }
  }

  lemma OrderStep(frags: seq<ToolDelta>, d: ToolDelta)
    ensures var before, idx := Order(frags), IndexOf(d);
            Order(frags + [d]) == if idx in before then before else before + [idx]
  {
    assert (frags + [d])[..|frags|] == frags;
  }

  lemma CallStep(e: Env, frags: seq<ToolDelta>, d: ToolDelta, idx: int)
    ensures CallOf(e, frags + [d], idx).id
         == if IndexOf(d) == idx && d.id != "" then d.id else CallOf(e, frags, idx).id
  {
    hide ToolIdentity, KindOf;
    assert (frags + [d])[..|frags|] == frags;
  }

  lemma {:induction false} NewCall(e: Env, frags: seq<ToolDelta>, idx: int)
    requires idx !in Order(frags)
    ensures CallOf(e, frags, idx).id == ""
  {
    hide Extended;
    if frags != [] { NewCall(e, frags[..|frags| - 1], idx); }
  }

  /** A signal is noted, or the stream stops at it with the notes it had. */
  lemma ApplyNoted(e: Env, s: State, sigs: seq<Signal>, sig: Signal)
    requires Noted(e, s, sigs, 0) && Steady(s) && !s.Failed()
    ensures var s1 := Apply(e, s, sig); Noted(e, s1, sigs + [sig], 0) || (s1.Failed() && Noted(e, s1, sigs, 0))
  {
    hide Noted, Accounted, AppendTool, AppendText, FinishReasoning, FinishText, NotReopened, Emit, EmitAll;
    var s1 := Apply(e, s, sig);
    match sig
    case SetUsage(u) => TextNoted(e, s, s1, sigs, sig);
    case SetFinish(r) => TextNoted(e, s, s1, sigs, sig);
    case ReasoningPiece(t) => ReasoningNoted(e, s, sigs, t);
    case TextPiece(t) => MessageNoted(e, s, sigs, t);
    case ToolPiece(d) =>
      CloseNoted(e, s, sigs);
      if !CloseHeads(e, s).Failed() { PieceNoted(e, CloseHeads(e, s), sigs, d); }
  }

  lemma ReasoningNoted(e: Env, s: State, sigs: seq<Signal>, t: string)
    requires Noted(e, s, sigs, 0)
    ensures var s1 := HandleReasoning(e, s, t);
            Noted(e, s1, sigs + [ReasoningPiece(t)], 0) || (s1.Failed() && Noted(e, s1, sigs, 0))
  {
    hide Noted, Emit, EmitAll, FailOut, ReasoningOpening;
    var s1 := HandleReasoning(e, s, t);
    if (s.reasoning.started && !s.reasoning.open) || s.message.started || |s.tools| > 0 {
      FailedOut(e, s, ReasoningReopened);
      FailedOut(e, s, ReasoningLate);
      SameNotes(e, s, s1, sigs, 0);
    } else {
      assert s.message.text + "" == s.message.text;
      TextNoted(e, s, s1, sigs, ReasoningPiece(t));
    }
  }

  lemma FailedOut(e: Env, s: State, reason: Reason)
    ensures FailConversion(e, s, reason).Failed()
  {
  }

  lemma ReasoningClosedNoted(e: Env, s: State, sigs: seq<Signal>)
    requires Noted(e, s, sigs, 0)
    ensures Noted(e, FinishReasoning(e, s), sigs, 0)
  {
    hide Noted, EmitAll, StoreOutput;
    SameNotes(e, s, FinishReasoning(e, s), sigs, 0);
  }

  lemma CloseNoted(e: Env, s: State, sigs: seq<Signal>)
    requires Noted(e, s, sigs, 0) && Accounted(s) && NotReopened(s.out.err)
    ensures Noted(e, CloseHeads(e, s), sigs, 0) && Accounted(CloseHeads(e, s))
  {
    hide Noted, Accounted, EmitAll, StoreOutput, FinishReasoning, NotReopened;
    var s0 := FinishReasoning(e, s);
    ReasoningClosedNoted(e, s, sigs);
    FinishReasoningKeeps(e, s);
    FinishTextKeeps(e, s0);
    SameNotes(e, s0, FinishText(e, s0), sigs, 0);
  }

  lemma MessageNoted(e: Env, s: State, sigs: seq<Signal>, t: string)
    requires Noted(e, s, sigs, 0)
    ensures var s1 := HandleText(e, s, t);
            Noted(e, s1, sigs + [TextPiece(t)], 0) || (s1.Failed() && Noted(e, s1, sigs, 0))
  {
    hide Noted, Emit, EmitAll, FailOut, FinishReasoning, MessageOpening;
    var s1, s0 := HandleText(e, s, t), FinishReasoning(e, s);
    ReasoningClosedNoted(e, s, sigs);
    if |s.tools| > 0 {
      FailedOut(e, s, TextAfterTools);
      SameNotes(e, s, s1, sigs, 0);
    } else if s0.Failed() {
    } else if s0.message.started && !s0.message.open {
      FailedOut(e, s0, TextReopened);
      SameNotes(e, s0, s1, sigs, 0);
    } else {
      assert s0.reasoning.text + "" == s0.reasoning.text;
      TextNoted(e, s0, s1, sigs, TextPiece(t));
    }
  }

  lemma OpeningNoted(e: Env)
    ensures Noted(e, Opening(e), [], 0)
  {
  }

  /** The reading phase has noted all signals it took, or all but the one at which it stopped. */
  lemma {:induction false} FeedNoted(e: Env, sigs: seq<Signal>) returns (k: nat)
    ensures k <= Taken(e, sigs) <= |sigs| && Taken(e, sigs) <= k + 1
    ensures Noted(e, Feed(e, Opening(e), sigs), sigs[..k], 0)
    ensures !Feed(e, Opening(e), sigs).Failed() ==> k == |sigs|
  {
    hide Noted, Apply, Steady, Opening;
    if sigs == [] {
      OpeningNoted(e);
      k := 0;
    } else {
      var before, sig := sigs[..|sigs| - 1], sigs[|sigs| - 1];
      k := FeedNoted(e, before);
      FeedSteady(e, before);
      var s := Feed(e, Opening(e), before);
      assert before[..k] == sigs[..k];
      FailedStays(e, s, sig);
      if !s.Failed() {
        assert before[..k] == before && before + [sig] == sigs && sigs[..|sigs|] == sigs;
        ApplyNoted(e, s, before, sig);
        k := if Noted(e, Feed(e, Opening(e), sigs), sigs, 0) then |sigs| else |sigs| - 1;
      }
    }
  }

  lemma FailedStays(e: Env, s: State, sig: Signal)
    ensures s.Failed() ==> Apply(e, s, sig) == s
  {
  }

  // ---------- the end of a run ----------

  /** One turn of the closing loop gives one more call its final id, unless it has no name. */
  lemma FinishToolNoted(e: Env, s: State, sigs: seq<Signal>, m: nat)
    requires Noted(e, s, sigs, m) && Accounted(s) && m < |s.toolOrder| && s.toolOrder[m] in s.tools
    ensures var s1, named := FinishTool(e, s, s.toolOrder[m]).0, s.tools[s.toolOrder[m]].name != "";
            Noted(e, s1, sigs, if named then m + 1 else m)
  {
    hide Announcement, ToolClosing, StoreOutput, EmitAll, FailOut, Fragments, Order, CallOf, Noted, Accounted;
    var idx := s.toolOrder[m];
    var s1 := FinishTool(e, s, idx).0;
    if s.tools[idx].name == "" {
      SameNotes(e, s, s1, sigs, m);
    } else {
      OneMoreID(e, s, s1, sigs, m, Announced(e, NameCall(e, s.tools[idx], idx), idx));
    }
  }

  lemma OneMoreID(e: Env, s: State, s1: State, sigs: seq<Signal>, m: nat, t: Tool)
    requires Noted(e, s, sigs, m) && Accounted(s) && m < |s.toolOrder| && s.toolOrder[m] in s.tools
    requires t.callID == NameCall(e, s.tools[s.toolOrder[m]], s.toolOrder[m]).callID
    requires s1 == s.(out := s1.out, outputs := s1.outputs, tools := s.tools[s.toolOrder[m] := t])
    ensures Noted(e, s1, sigs, m + 1)
  {
    hide Fragments, Order, CallOf, UsageOf, ReasoningOf, TextOf;
    var frags, next := Fragments(sigs), m + 1;
    forall i: nat | i < |s1.toolOrder| ensures NotedCall(e, s1, frags, next, i) {
      assert NotedCall(e, s, frags, m, i);
      if i < m { assert s.toolOrder[i] != s.toolOrder[m]; }
      if m < i { assert s.toolOrder[m] != s.toolOrder[i]; }
    }
  }

  lemma {:induction false} FinishToolsNoted(e: Env, s: State, sigs: seq<Signal>, m: nat) returns (m1: nat)
    requires Noted(e, s, sigs, m) && Accounted(s) && NotReopened(s.out.err) && Keyed(s) && m <= |s.toolOrder|
    ensures Noted(e, FinishTools(e, s, m).0, sigs, m1)
    decreases |s.toolOrder| - m
  {
    hide Noted, Accounted, FinishTool, NotReopened;
    m1 := m;
    if m < |s.toolOrder| {
      FinishToolNoted(e, s, sigs, m);
      FinishToolKeeps(e, s, s.toolOrder[m]);
      NamelessReturns(e, s, s.toolOrder[m]);
      var (s1, returned) := FinishTool(e, s, s.toolOrder[m]);
      if returned {
        m1 := if s.tools[s.toolOrder[m]].name != "" then m + 1 else m;
      } else {
        m1 := FinishToolsNoted(e, s1, sigs, m + 1);
      }
    }
  }

  lemma NamelessReturns(e: Env, s: State, idx: int)
    requires idx in s.tools
    ensures s.tools[idx].name == "" ==> FinishTool(e, s, idx).1
  {
  }

  lemma EpilogueNoted(e: Env, s: State, sigs: seq<Signal>, sawDone: bool) returns (m: nat)
    requires Noted(e, s, sigs, 0) && Accounted(s) && NotReopened(s.out.err) && Keyed(s)
    ensures Noted(e, Epilogue(e, s, sawDone), sigs, m)
  {
    hide Noted, Accounted, FinishTools, FinishReasoning, FinishText, FailOut, Emit, NotReopened, FinalBody;
    m := 0;
    SameNotes(e, s, FailConversion(e, s, ClosedEarly), sigs, 0);
    SameNotes(e, s, FailConversion(e, s, ReasoningOnly), sigs, 0);
    CloseNoted(e, s, sigs);
    FinishReasoningKeeps(e, s);
    FinishTextKeeps(e, FinishReasoning(e, s));
    var s0 := CloseHeads(e, s);
    if Epilogue(e, s, sawDone) == Finish(e, s) && !s0.Failed() {
      var m1 := FinishToolsNoted(e, s0, sigs, 0);
      var s1 := FinishTools(e, s0, 0).0;
      SameNotes(e, s1, s1.(out := Emit(e, s1.out, FinalBody(s1))), sigs, m1);
      m := m1;
      EpilogueEnds(e, s, sawDone);
    }
    EpilogueStarts(e, s, sawDone);
  }

  lemma EpilogueEnds(e: Env, s: State, sawDone: bool)
    requires Keyed(s) && Keyed(CloseHeads(e, s)) && !CloseHeads(e, s).Failed()
    requires Epilogue(e, s, sawDone) == Finish(e, s)
    ensures var (s1, returned) := FinishTools(e, CloseHeads(e, s), 0);
            Epilogue(e, s, sawDone) == if returned then s1 else s1.(out := Emit(e, s1.out, FinalBody(s1)))
  {
    hide FinishTools, FinishReasoning, FinishText, Emit, FinalBody;
  }

  lemma EpilogueStarts(e: Env, s: State, sawDone: bool)
    requires Keyed(s)
    ensures Epilogue(e, s, sawDone)
         in {FailConversion(e, s, ClosedEarly), FailConversion(e, s, ReasoningOnly), Finish(e, s)}
    ensures CloseHeads(e, s).Failed() ==> Finish(e, s) == CloseHeads(e, s)
  {
    hide FinishTools, FinishReasoning, FinishText, FailOut;
  }

  // ---------- what is returned ----------

  lemma {:induction false} IDsKnown(e: Env, s: State, sigs: seq<Signal>, m: nat, n: nat)
    requires Noted(e, s, sigs, m) && Keyed(s) && n <= |s.toolOrder|
    ensures CallIDs(s, n) == KnownIDs(e, Fragments(sigs), m, n)
  {
    hide KnownID, Fragments;
    if n > 0 {
      IDsKnown(e, s, sigs, m, n - 1);
      assert NotedCall(e, s, Fragments(sigs), m, n - 1);
    }
  }

  /** The run returns its result, and not the bare usage of a cancelled or broken stream. */
  predicate ReturnsResult(e: Env, turns: seq<Read>) {
    AfterReads(e, turns).Failed() || Received(turns).stop.StopEnd?
  }

  /** A result that is the reasoning, the text and the known ids of some signals. */
  ghost predicate ResultIs(e: Env, r: StreamResult, sigs: seq<Signal>, m: nat) {
    && m <= |Order(Fragments(sigs))|
    && r == StreamResult(UsageOf(sigs), KnownIDs(e, Fragments(sigs), m, |Order(Fragments(sigs))|),
                         ReasoningOf(sigs), TextOf(sigs))
  }

  lemma NotedResult(e: Env, s: State, sigs: seq<Signal>, m: nat)
    requires Noted(e, s, sigs, m) && Keyed(s)
    ensures ResultIs(e, ResultOf(s).result, sigs, m)
  {
    IDsKnown(e, s, sigs, m, |s.toolOrder|);
  }

  /**
   What is saved of any stream that returns its result: its reasoning and text are those of the signals it took, all of
   them or all but the one at which it stopped, and its call ids are the non-empty ones these signals gave, with the ids
   made up at the end for the first calls closed. A stream that was cancelled or broke off returns none of it.
   */
  lemma SavesWhatItTook(e: Env, turns: seq<Read>) returns (k: nat, m: nat)
    ensures var sigs, r := Received(turns).signals, Run(e, turns).1.result;
            if ReturnsResult(e, turns) then
              && k <= Taken(e, sigs) <= |sigs| && Taken(e, sigs) <= k + 1 && ResultIs(e, r, sigs[..k], m)
              && (!AfterReads(e, turns).Failed() ==> k == |sigs|)
            else r == StreamResult(AfterReads(e, turns).usage, [], "", "")
  {
    hide Feed, Received, Epilogue, Noted, Steady, Accounted, NotReopened, ResultIs, Opening, Keyed, Emit, Taken;
    var sigs := Received(turns).signals;
    var s := AfterReads(e, turns);
    k := FeedNoted(e, sigs);
    m := 0;
    FeedSteady(e, sigs);
    SteadyParts(s);
    OpeningKeyed(e);
    FeedKeyed(e, Opening(e), sigs);
    NotedResult(e, s, sigs[..k], 0);
    if !s.Failed() && Received(turns).stop.StopEnd? {
      m := EpilogueNoted(e, s, sigs[..k], Received(turns).stop.sawDone);
      EpilogueKeyed(e, s, Received(turns).stop.sawDone);
      NotedResult(e, Epilogue(e, s, Received(turns).stop.sawDone), sigs[..k], m);
    }
  }

  lemma SteadyParts(s: State)
    requires Steady(s)
    ensures Accounted(s) && NotReopened(s.out.err)
  {
  }
}
