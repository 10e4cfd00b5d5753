/**
 Index accounting in every state a stream can reach, whatever the upstream sends and whenever the writer fails: it
 asks nothing of the events that got through. (convert/stream.go)
 */
module StreamAccounting {
  import opened Common
  import opened StreamSpec
  import opened StreamInvariants

  /** The stream was not stopped by a text delta after its message item was closed. */
  predicate NotReopened(err: Option<Fault>) {
    err != Some(Rejected(TextReopened)) && err != Some(RejectedUnwritten(TextReopened))
  }

  /** What the reading phase keeps: the indices are accounted for, and a message item is closed by tool calls alone. */
  ghost predicate Steady(s: State) {
    && Accounted(s) && NotReopened(s.out.err)
    && (s.message.started && s.toolOrder == [] ==> s.message.open)
  }

  // ---------- errors ----------

  /** Sending events can only add a write fault. */
  lemma {:induction false} EmitAllError(e: Env, o: Out, bodies: seq<Body>)
    ensures EmitAll(e, o, bodies).err in {o.err, Some(WriteFault)} && (o.err.Some? ==> EmitAll(e, o, bodies) == o)
  {
    if bodies != [] { EmitAllError(e, o, bodies[..|bodies| - 1]); }
  }

  lemma FailError(e: Env, s: State, reason: Reason)
    requires reason != TextReopened
    ensures var s1 := FailConversion(e, s, reason); s1 == s.(out := s1.out) && NotReopened(s1.out.err)
  {
  }

  lemma NoToolsYet(s: State)
    requires Accounted(s)
    ensures |s.tools| == 0 <==> s.toolOrder == []
  {
  }

  // ---------- the handlers ----------

  lemma FinishReasoningKeeps(e: Env, s: State)
    requires Accounted(s) && NotReopened(s.out.err)
    ensures var s1 := FinishReasoning(e, s);
            && Accounted(s1) && NotReopened(s1.out.err) && (s1.Failed() || !s1.reasoning.open || s == s1)
            && s1 == s.(out := s1.out, outputs := s1.outputs, reasoning := s.reasoning.(open := s1.reasoning.open))
            && (s1.reasoning.open ==> s1.Failed())
  {
    hide ReasoningClosing;
    EmitAllError(e, s.out, ReasoningClosing(e, s.reasoning));
  }

  lemma FinishTextKeeps(e: Env, s: State)
    requires Accounted(s) && NotReopened(s.out.err)
    ensures var s1 := FinishText(e, s);
            && Accounted(s1) && NotReopened(s1.out.err)
            && s1 == s.(out := s1.out, outputs := s1.outputs, message := s.message.(open := s1.message.open))
            && (s1.message.open ==> s1.Failed()) && (s1.Failed() ==> s1.message == s.message)
            && (s.Failed() ==> s1.Failed())
  {
    hide MessageClosing;
    EmitAllError(e, s.out, MessageClosing(e, s.finishReason, s.message));
  }

  lemma EmitError(e: Env, o: Out, body: Body)
    ensures Emit(e, o, body).err in {o.err, Some(WriteFault)}
  {
  }

  lemma ReasoningSteady(e: Env, s: State, delta: string)
    requires Steady(s)
    ensures Steady(HandleReasoning(e, s, delta))
  {
    hide ReasoningOpening, Emit;
    NoToolsYet(s);
    FailError(e, s, ReasoningReopened);
    FailError(e, s, ReasoningLate);
    var p := OpenSection(s.reasoning, s.nextIndex);
    EmitAllError(e, s.out, ReasoningOpening(e, s.reasoning, s.nextIndex));
    EmitError(e, EmitAll(e, s.out, ReasoningOpening(e, s.reasoning, s.nextIndex)),
              ReasoningDelta(p.index, RsID(e), delta));
  }

  lemma AppendTextSteady(e: Env, s: State, delta: string)
    requires Steady(s) && !s.reasoning.open && s.toolOrder == [] && !(s.message.started && !s.message.open)
    ensures Steady(AppendText(e, s, delta))
  {
    hide MessageOpening, Emit;
    var p := OpenSection(s.message, s.nextIndex);
    EmitAllError(e, s.out, MessageOpening(e, s.message, s.nextIndex));
    EmitError(e, EmitAll(e, s.out, MessageOpening(e, s.message, s.nextIndex)), TextDelta(p.index, MsgID(e), delta));
  }

  lemma TextSteady(e: Env, s: State, delta: string)
    requires Steady(s)
    ensures Steady(HandleText(e, s, delta))
  {
    hide AppendText, FinishReasoning;
    NoToolsYet(s);
    FailError(e, s, TextAfterTools);
    FinishReasoningKeeps(e, s);
    var s0 := FinishReasoning(e, s);
    if s.toolOrder == [] && !s0.Failed() { AppendTextSteady(e, s0, delta); }
  }

  lemma AppendToolSteady(e: Env, s: State, d: ToolDelta)
    requires Accounted(s) && NotReopened(s.out.err) && !s.reasoning.open && !s.message.open
    ensures Steady(AppendTool(e, s, d))
  {
    hide AppendTool, ToolEvents;
    var idx := IndexOf(d);
    var t := Extend(Previous(s, idx), d);
    AppendToolShape(e, s, d);
    EmitAllError(e, s.out, ToolEvents(e, t, idx, d.args));
    RecordKeepsAccount(s, AppendTool(e, s, d), idx, Announced(e, t, idx));
    if idx in s.tools { assert idx in s.toolOrder; }
  }

  lemma ToolSteady(e: Env, s: State, d: ToolDelta)
    requires Steady(s)
    ensures Steady(HandleToolCall(e, s, d))
  {
    hide AppendTool, FinishReasoning, FinishText;
    FinishReasoningKeeps(e, s);
    var s0 := FinishReasoning(e, s);
    FinishTextKeeps(e, s0);
    if !FinishText(e, s0).Failed() { AppendToolSteady(e, FinishText(e, s0), d); }
  }

  lemma ApplySteady(e: Env, s: State, sig: Signal)
    requires Steady(s)
    ensures Steady(Apply(e, s, sig))
  {
    hide HandleReasoning, HandleText, HandleToolCall;
    match sig
    case ReasoningPiece(t) => ReasoningSteady(e, s, t);
    case TextPiece(t) => TextSteady(e, s, t);
    case ToolPiece(d) => ToolSteady(e, s, d);
    case _ =>
  }

  /** Every state of the reading phase, for any signals and any writer. */
  lemma {:induction false} FeedSteady(e: Env, sigs: seq<Signal>)
    ensures Steady(Feed(e, Opening(e), sigs))
  {
    if sigs == [] {
      EmitAllError(e, INITIAL.out, [CreatedEvent, InProgressEvent]);
    } else {
      FeedSteady(e, sigs[..|sigs| - 1]);
      ApplySteady(e, Feed(e, Opening(e), sigs[..|sigs| - 1]), sigs[|sigs| - 1]);
    }
  }

  // ---------- the end of a run ----------

  lemma FinishToolKeeps(e: Env, s: State, idx: int)
    requires Accounted(s) && NotReopened(s.out.err) && idx in s.tools
    ensures var s1 := FinishTool(e, s, idx).0; Accounted(s1) && NotReopened(s1.out.err)
  {
    hide Announcement, ToolClosing, StoreOutput;
    var s1 := FinishTool(e, s, idx).0;
    if s.tools[idx].name == "" {
      FailError(e, s, ToolWithoutName(idx));
    } else {
      var named := NameCall(e, s.tools[idx], idx);
      var t := Announced(e, named, idx);
      var o := EmitAll(e, s.out, Announcement(e, named, idx));
      EmitAllError(e, s.out, Announcement(e, named, idx));
      EmitAllError(e, o, ToolClosing(e, t));
      SameRecords(s, s1, idx, t);
    }
  }

  lemma SameRecords(s: State, s1: State, idx: int, t: Tool)
    requires Accounted(s) && idx in s.tools && t.outputIndex == s.tools[idx].outputIndex
    requires s1 == s.(out := s1.out, outputs := s1.outputs, tools := s.tools[idx := t])
    ensures Accounted(s1)
  {
    assert s1.tools.Keys == s.tools.Keys;
    assert |s1.tools| == |s1.tools.Keys| && |s.tools| == |s.tools.Keys|;
  }

  lemma {:induction false} FinishToolsKeeps(e: Env, s: State, k: nat)
    requires Accounted(s) && NotReopened(s.out.err) && Keyed(s) && k <= |s.toolOrder|
    ensures var s1 := FinishTools(e, s, k).0; Accounted(s1) && NotReopened(s1.out.err)
    decreases |s.toolOrder| - k
  {
    hide FinishTool, Accounted;
    if k < |s.toolOrder| {
      FinishToolKeeps(e, s, s.toolOrder[k]);
      var (s1, returned) := FinishTool(e, s, s.toolOrder[k]);
      if !returned { FinishToolsKeeps(e, s1, k + 1); }
    }
  }

  lemma FinishKeeps(e: Env, s: State)
    requires Accounted(s) && NotReopened(s.out.err) && Keyed(s)
    ensures var s1 := Finish(e, s); Accounted(s1) && NotReopened(s1.out.err)
  {
    hide FinishReasoning, FinishText, FinishTools, Accounted, FinalBody;
    FinishReasoningKeeps(e, s);
    FinishTextKeeps(e, FinishReasoning(e, s));
    var s0 := FinishText(e, FinishReasoning(e, s));
    if !s0.Failed() {
      FinishToolsKeeps(e, s0, 0);
      var s1 := FinishTools(e, s0, 0).0;
      EmitError(e, s1.out, FinalBody(s1));
      OnlyEvents(s1, s1.(out := Emit(e, s1.out, FinalBody(s1))));
    }
  }

  lemma OnlyEvents(s: State, s1: State)
    requires Accounted(s) && s1 == s.(out := s1.out)
    ensures Accounted(s1)
  {
  }

  /** The state any run ends in. */
  lemma RunAccounted(e: Env, turns: seq<Read>)
    ensures var s := Run(e, turns).0; Accounted(s) && NotReopened(s.out.err)
  {
    hide Finish, Received, Feed, Opening, Accounted, Keyed, ResultOf, BareResult, Emit, FailConversion;
    OpeningKeyed(e);
    var s := AfterReads(e, turns);
    FeedSteady(e, Received(turns).signals);
    FeedKeyed(e, Opening(e), Received(turns).signals);
    assert Accounted(s) && NotReopened(s.out.err);
    match Received(turns).stop
    case StopCancelled =>
    case StopUpstream(m) => LastEvent(e, s, FailedEvent(Upstream(m)));
    case StopBroken(m) => LastEvent(e, s, FailedEvent(ReadFailure(m)));
    case StopEnd(sawDone) =>
      EpilogueKeyed(e, s, sawDone);
      FailError(e, s, ClosedEarly);
      FailError(e, s, ReasoningOnly);
      OnlyEvents(s, FailConversion(e, s, ClosedEarly));
      OnlyEvents(s, FailConversion(e, s, ReasoningOnly));
      FinishKeeps(e, s);
  }

  lemma OpeningKeyed(e: Env)
    ensures Keyed(Opening(e))
  {
  }

  lemma LastEvent(e: Env, s: State, body: Body)
    requires Accounted(s) && NotReopened(s.out.err)
    ensures var s1 := s.(out := Emit(e, s.out, body)); Accounted(s1) && NotReopened(s1.out.err)
  {
    hide Accounted;
    EmitError(e, s.out, body);
    OnlyEvents(s, s.(out := Emit(e, s.out, body)));
  }
}
