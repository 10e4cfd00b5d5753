/**
 Write failures. Two runs over the same upstream, one with a writer that never fails and one with a writer that
 fails at some event: what the second client received is a prefix of what the first one did.
 */
module StreamFaults {
  import opened Common
  import opened StreamSpec

  /** The same run with a writer that fails after `k` events, and with one that never does. */
  ghost predicate Twin(f: Env, g: Env, k: nat) {
    g.limit.None? && f == g.(limit := Some(k))
  }

  /** `of` is `og` as long as the writer holds, and `og` cut after `k` events once it has failed. */
  ghost predicate Cut(of: Out, og: Out, k: nat) {
    || (of == og && |of.trace| <= k)
    || (of.err.Some? && |of.trace| == k && of.trace <= og.trace)
  }

  lemma EmitCut(f: Env, g: Env, k: nat, of: Out, og: Out, body: Body)
    requires Twin(f, g, k) && Cut(of, og, k)
    ensures Cut(Emit(f, of, body), Emit(g, og, body), k)
  {
  }

  lemma {:induction false} EmitAllCut(f: Env, g: Env, k: nat, of: Out, og: Out, bodies: seq<Body>)
    requires Twin(f, g, k) && Cut(of, og, k)
    ensures Cut(EmitAll(f, of, bodies), EmitAll(g, og, bodies), k)
  {
    if bodies != [] {
      EmitAllCut(f, g, k, of, og, bodies[..|bodies| - 1]);
      EmitCut(f, g, k, EmitAll(f, of, bodies[..|bodies| - 1]), EmitAll(g, og, bodies[..|bodies| - 1]),
              bodies[|bodies| - 1]);
    }
  }

  lemma FailCut(f: Env, g: Env, k: nat, of: Out, og: Out, reason: Reason)
    requires Twin(f, g, k) && Cut(of, og, k)
    ensures Cut(FailOut(f, of, reason), FailOut(g, og, reason), k)
  {
    EmitCut(f, g, k, of, og, FailedEvent(Conversion(reason)));
  }

  // ---------- states ----------

  ghost predicate StateCut(sf: State, sg: State, k: nat) {
    || (sf == sg && |sf.out.trace| <= k)
    || Lost(sf, sg, k)
  }

  /** The writer has failed: whatever the other run still sends, this one stays cut. */
  ghost predicate Lost(sf: State, sg: State, k: nat) {
    sf.Failed() && |sf.out.trace| == k && sf.out.trace <= sg.out.trace
  }

  ghost predicate Grew(o: Out, o1: Out) { o.trace <= o1.trace }

  /** Once failed, no more events; never fewer. */
  ghost predicate Continues(s: State, s1: State) {
    && Grew(s.out, s1.out)
    && (s.Failed() ==> s1.Failed() && s1.out.trace == s.out.trace)
  }

  lemma {:induction false} EmitAllContinues(e: Env, o: Out, bodies: seq<Body>)
    ensures var o1 := EmitAll(e, o, bodies);
            Grew(o, o1) && (o.err.Some? ==> o1 == o)
  {
    if bodies != [] {
      EmitAllContinues(e, o, bodies[..|bodies| - 1]);
    }
  }

  /** A lost run stays lost through any continuation of both. */
  lemma StaysLost(sf: State, sg: State, sf1: State, sg1: State, k: nat)
    requires Lost(sf, sg, k) && Continues(sf, sf1) && Continues(sg, sg1)
    ensures Lost(sf1, sg1, k)
  {
  }

  // ---------- closing the text items ----------

  lemma FinishReasoningContinues(e: Env, s: State)
    ensures Continues(s, FinishReasoning(e, s))
  {
    EmitAllContinues(e, s.out, ReasoningClosing(e, s.reasoning));
  }

  lemma FinishTextContinues(e: Env, s: State)
    ensures Continues(s, FinishText(e, s))
  {
    EmitAllContinues(e, s.out, MessageClosing(e, s.finishReason, s.message));
  }

  lemma FinishReasoningCut(f: Env, g: Env, k: nat, s: State)
    requires Twin(f, g, k) && |s.out.trace| <= k
    ensures StateCut(FinishReasoning(f, s), FinishReasoning(g, s), k)
  {
    EmitAllCut(f, g, k, s.out, s.out, ReasoningClosing(f, s.reasoning));
  }

  lemma FinishTextCut(f: Env, g: Env, k: nat, s: State)
    requires Twin(f, g, k) && |s.out.trace| <= k
    ensures StateCut(FinishText(f, s), FinishText(g, s), k)
  {
    EmitAllCut(f, g, k, s.out, s.out, MessageClosing(f, s.finishReason, s.message));
  }

  lemma CloseHeadsContinues(e: Env, s: State)
    ensures Continues(s, CloseHeads(e, s))
  {
    FinishReasoningContinues(e, s);
    FinishTextContinues(e, FinishReasoning(e, s));
  }

  lemma CloseHeadsCut(f: Env, g: Env, k: nat, s: State)
    requires Twin(f, g, k) && |s.out.trace| <= k
    ensures StateCut(CloseHeads(f, s), CloseHeads(g, s), k)
  {
    hide FinishReasoning, FinishText;
    var sf, sg := FinishReasoning(f, s), FinishReasoning(g, s);
    FinishReasoningCut(f, g, k, s);
    if Lost(sf, sg, k) {
      FinishTextContinues(f, sf);
      FinishTextContinues(g, sg);
      StaysLost(sf, sg, FinishText(f, sf), FinishText(g, sg), k);
    } else {
      FinishTextCut(f, g, k, sf);
    }
  }

  // ---------- the handlers ----------

  lemma HandleReasoningContinues(e: Env, s: State, text: string)
    ensures Continues(s, HandleReasoning(e, s, text))
  {
    EmitAllContinues(e, s.out, ReasoningOpening(e, s.reasoning, s.nextIndex));
  }

  lemma HandleReasoningCut(f: Env, g: Env, k: nat, s: State, text: string)
    requires Twin(f, g, k) && |s.out.trace| <= k
    ensures StateCut(HandleReasoning(f, s, text), HandleReasoning(g, s, text), k)
  {
    if s.reasoning.started && !s.reasoning.open {
      FailCut(f, g, k, s.out, s.out, ReasoningReopened);
    } else if s.message.started || |s.tools| > 0 {
      FailCut(f, g, k, s.out, s.out, ReasoningLate);
    } else {
      var b := ReasoningOpening(f, s.reasoning, s.nextIndex);
      var p := OpenSection(s.reasoning, s.nextIndex);
      EmitAllCut(f, g, k, s.out, s.out, b);
      EmitCut(f, g, k, EmitAll(f, s.out, b), EmitAll(g, s.out, b), ReasoningDelta(p.index, RsID(f), text));
    }
  }

  lemma AppendTextContinues(e: Env, s: State, text: string)
    ensures Continues(s, AppendText(e, s, text))
  {
    EmitAllContinues(e, s.out, MessageOpening(e, s.message, s.nextIndex));
  }

  lemma AppendTextCut(f: Env, g: Env, k: nat, s: State, text: string)
    requires Twin(f, g, k) && |s.out.trace| <= k
    ensures StateCut(AppendText(f, s, text), AppendText(g, s, text), k)
  {
    var b := MessageOpening(f, s.message, s.nextIndex);
    var p := OpenSection(s.message, s.nextIndex);
    EmitAllCut(f, g, k, s.out, s.out, b);
    EmitCut(f, g, k, EmitAll(f, s.out, b), EmitAll(g, s.out, b), TextDelta(p.index, MsgID(f), text));
  }

  lemma HandleTextContinues(e: Env, s: State, text: string)
    ensures Continues(s, HandleText(e, s, text))
  {
    hide FinishReasoning, AppendText;
    FinishReasoningContinues(e, s);
    AppendTextContinues(e, FinishReasoning(e, s), text);
  }

  lemma HandleTextCut(f: Env, g: Env, k: nat, s: State, text: string)
    requires Twin(f, g, k) && |s.out.trace| <= k
    ensures StateCut(HandleText(f, s, text), HandleText(g, s, text), k)
  {
    hide FinishReasoning, AppendText, FailOut;
    if |s.tools| > 0 {
      FailCut(f, g, k, s.out, s.out, TextAfterTools);
    } else {
      var sf, sg := FinishReasoning(f, s), FinishReasoning(g, s);
      FinishReasoningCut(f, g, k, s);
      if Lost(sf, sg, k) {
        RestOfTextContinues(g, sg, text);
      } else if !sf.Failed() {
        FailCut(f, g, k, sf.out, sf.out, TextReopened);
        AppendTextCut(f, g, k, sf, text);
      }
    }
  }

  function RestOfText(e: Env, s: State, text: string): State {
    if s.Failed() then s
    else if s.message.started && !s.message.open then FailConversion(e, s, TextReopened)
    else AppendText(e, s, text)
  }

  lemma RestOfTextContinues(e: Env, s: State, text: string)
    ensures Continues(s, RestOfText(e, s, text))
  {
    hide AppendText;
    AppendTextContinues(e, s, text);
  }

  /** Events do not depend on the writer. */
  lemma SameToolEvents(f: Env, g: Env, k: nat, t: Tool, idx: int, args: string)
    requires Twin(f, g, k)
    ensures Announcement(f, t, idx) == Announcement(g, t, idx) && Announced(f, t, idx) == Announced(g, t, idx)
    ensures Continuation(f, t, args) == Continuation(g, t, args)
    ensures NameCall(f, t, idx) == NameCall(g, t, idx)
    ensures ToolClosing(f, t) == ToolClosing(g, t) && ToolDone(f, t) == ToolDone(g, t)
  {
  }

  lemma AppendToolContinues(e: Env, s: State, d: ToolDelta)
    ensures Continues(s, AppendTool(e, s, d))
  {
    hide Announcement, Continuation, Announced;
    var t := RegisterTool(s, d).tools[IndexOf(d)];
    EmitAllContinues(e, s.out, if CanStart(t) then Announcement(e, t, IndexOf(d)) else Continuation(e, t, d.args));
  }

  lemma AppendToolCut(f: Env, g: Env, k: nat, s: State, d: ToolDelta)
    requires Twin(f, g, k) && |s.out.trace| <= k
    ensures StateCut(AppendTool(f, s, d), AppendTool(g, s, d), k)
  {
    hide Announcement, Continuation, Announced;
    var t := RegisterTool(s, d).tools[IndexOf(d)];
    SameToolEvents(f, g, k, t, IndexOf(d), d.args);
    EmitAllCut(f, g, k, s.out, s.out, if CanStart(t)
               then Announcement(f, t, IndexOf(d)) else Continuation(f, t, d.args));
  }

  lemma HandleToolContinues(e: Env, s: State, d: ToolDelta)
    ensures Continues(s, HandleToolCall(e, s, d))
  {
    hide AppendTool, CloseHeads;
    CloseHeadsContinues(e, s);
    AppendToolContinues(e, CloseHeads(e, s), d);
    ToolAfterClosing(e, s, d);
  }

  lemma ToolAfterClosing(e: Env, s: State, d: ToolDelta)
    ensures var s0 := CloseHeads(e, s);
            HandleToolCall(e, s, d) == if s0.Failed() then s0 else AppendTool(e, s0, d)
  {
    hide FinishReasoning, FinishText, AppendTool;
  }

  lemma HandleToolCut(f: Env, g: Env, k: nat, s: State, d: ToolDelta)
    requires Twin(f, g, k) && |s.out.trace| <= k
    ensures StateCut(HandleToolCall(f, s, d), HandleToolCall(g, s, d), k)
  {
    hide AppendTool, CloseHeads, HandleToolCall;
    var sf, sg := CloseHeads(f, s), CloseHeads(g, s);
    CloseHeadsCut(f, g, k, s);
    ToolAfterClosing(f, s, d);
    ToolAfterClosing(g, s, d);
    if Lost(sf, sg, k) {
      AppendToolContinues(g, sg, d);
    } else if !sf.Failed() {
      AppendToolCut(f, g, k, sf, d);
    }
  }

  // ---------- the reading phase ----------

  lemma ApplyContinues(e: Env, s: State, sig: Signal)
    ensures Continues(s, Apply(e, s, sig))
  {
    hide HandleReasoning, HandleText, HandleToolCall;
    match sig
    case ReasoningPiece(t) => HandleReasoningContinues(e, s, t);
    case TextPiece(t) => HandleTextContinues(e, s, t);
    case ToolPiece(d) => HandleToolContinues(e, s, d);
    case _ =>
  }

  lemma ApplyCut(f: Env, g: Env, k: nat, s: State, sig: Signal)
    requires Twin(f, g, k) && |s.out.trace| <= k
    ensures StateCut(Apply(f, s, sig), Apply(g, s, sig), k)
  {
    hide HandleReasoning, HandleText, HandleToolCall;
    match sig
    case ReasoningPiece(t) => HandleReasoningCut(f, g, k, s, t);
    case TextPiece(t) => HandleTextCut(f, g, k, s, t);
    case ToolPiece(d) => HandleToolCut(f, g, k, s, d);
    case _ =>
  }

  lemma {:induction false} FeedCut(f: Env, g: Env, k: nat, sf: State, sg: State, sigs: seq<Signal>)
    requires Twin(f, g, k) && StateCut(sf, sg, k)
    ensures StateCut(Feed(f, sf, sigs), Feed(g, sg, sigs), k)
  {
    hide Apply;
    if sigs != [] {
      var before, sig := sigs[..|sigs| - 1], sigs[|sigs| - 1];
      FeedCut(f, g, k, sf, sg, before);
      var tf, tg := Feed(f, sf, before), Feed(g, sg, before);
      if Lost(tf, tg, k) {
        ApplyContinues(f, tf, sig);
        ApplyContinues(g, tg, sig);
        StaysLost(tf, tg, Apply(f, tf, sig), Apply(g, tg, sig), k);
      } else {
        ApplyCut(f, g, k, tf, sig);
      }
    }
  }

  // ---------- the closing phase ----------

  lemma FinishToolContinues(e: Env, s: State, idx: int)
    requires idx in s.tools
    ensures Continues(s, FinishTool(e, s, idx).0) && (s.Failed() ==> FinishTool(e, s, idx).1)
  {
    hide Announcement, Announced, ToolClosing, NameCall, StoreOutput, ToolDone;
    var named := NameCall(e, s.tools[idx], idx);
    var t := Announced(e, named, idx);
    var o := EmitAll(e, s.out, Announcement(e, named, idx));
    EmitAllContinues(e, s.out, Announcement(e, named, idx));
    EmitAllContinues(e, o, ToolClosing(e, t));
  }

  /** Both loops turn alike, or the first run is lost by the end of the turn. */
  lemma FinishToolCut(f: Env, g: Env, k: nat, s: State, idx: int)
    requires Twin(f, g, k) && |s.out.trace| <= k && idx in s.tools
    ensures StateCut(FinishTool(f, s, idx).0, FinishTool(g, s, idx).0, k)
    ensures FinishTool(f, s, idx) == FinishTool(g, s, idx) || Lost(FinishTool(f, s, idx).0, FinishTool(g, s, idx).0, k)
  {
    hide Announcement, Announced, ToolClosing, NameCall, StoreOutput, ToolDone;
    if s.tools[idx].name == "" {
      FailCut(f, g, k, s.out, s.out, ToolWithoutName(idx));
    } else {
      SameToolEvents(f, g, k, s.tools[idx], idx, "");
      var named := NameCall(f, s.tools[idx], idx);
      SameToolEvents(f, g, k, named, idx, "");
      var t := Announced(f, named, idx);
      SameToolEvents(f, g, k, t, idx, "");
      var a := Announcement(f, named, idx);
      EmitAllCut(f, g, k, s.out, s.out, a);
      var of, og := EmitAll(f, s.out, a), EmitAll(g, s.out, a);
      EmitAllCut(f, g, k, of, og, ToolClosing(f, t));
      EmitAllContinues(f, of, ToolClosing(f, t));
      EmitAllContinues(g, og, ToolClosing(f, t));
    }
  }

  lemma {:induction false} FinishToolsContinues(e: Env, s: State, n: nat)
    requires n <= |s.toolOrder| && Keyed(s)
    ensures Continues(s, FinishTools(e, s, n).0)
    decreases |s.toolOrder| - n
  {
    hide FinishTool;
    if n < |s.toolOrder| {
      FinishToolContinues(e, s, s.toolOrder[n]);
      FinishToolsContinues(e, FinishTool(e, s, s.toolOrder[n]).0, n + 1);
    }
  }

  lemma {:induction false} FinishToolsCut(f: Env, g: Env, k: nat, s: State, n: nat)
    requires Twin(f, g, k) && |s.out.trace| <= k && n <= |s.toolOrder| && Keyed(s)
    ensures StateCut(FinishTools(f, s, n).0, FinishTools(g, s, n).0, k)
    ensures FinishTools(f, s, n) == FinishTools(g, s, n) || Lost(FinishTools(f, s, n).0, FinishTools(g, s, n).0, k)
    decreases |s.toolOrder| - n
  {
    hide FinishTool;
    if n < |s.toolOrder| {
      var idx := s.toolOrder[n];
      var rf, rg := FinishTool(f, s, idx), FinishTool(g, s, idx);
      FinishToolCut(f, g, k, s, idx);
      if rf == rg && |rf.0.out.trace| <= k {
        if !rf.1 { FinishToolsCut(f, g, k, rf.0, n + 1); }
      } else {
        if !rf.1 { FinishToolsContinues(f, rf.0, n + 1); }
        if !rg.1 { FinishToolsContinues(g, rg.0, n + 1); }
        StaysLost(rf.0, rg.0, FinishTools(f, s, n).0, FinishTools(g, s, n).0, k);
      }
    }
  }

  lemma ClosedKeyed(e: Env, s: State)
    requires Keyed(s)
    ensures Keyed(CloseHeads(e, s))
  {
    var s0 := CloseHeads(e, s);
    assert s0.tools == s.tools && s0.toolOrder == s.toolOrder;
  }

  /** Finish once the text items are closed. */
  function RestOfFinish(e: Env, s: State): State
    requires Keyed(s)
  {
    if s.Failed() then s
    else
      var (s1, returned) := FinishTools(e, s, 0);
      if returned then s1 else s1.(out := Emit(e, s1.out, FinalBody(s1)))
  }

  lemma FinishSplits(e: Env, s: State)
    requires Keyed(s)
    ensures Keyed(CloseHeads(e, s)) && Finish(e, s) == RestOfFinish(e, CloseHeads(e, s))
  {
    hide FinishTools, FinalBody;
    ClosedKeyed(e, s);
  }

  lemma RestOfFinishContinues(e: Env, s: State)
    requires Keyed(s)
    ensures Continues(s, RestOfFinish(e, s))
  {
    hide FinishTools, FinalBody;
    FinishToolsContinues(e, s, 0);
  }

  lemma RestOfFinishCut(f: Env, g: Env, k: nat, s: State)
    requires Twin(f, g, k) && |s.out.trace| <= k && Keyed(s)
    ensures StateCut(RestOfFinish(f, s), RestOfFinish(g, s), k)
  {
    hide FinishTools, FinalBody;
    FinishToolsCut(f, g, k, s, 0);
  }

  lemma FinishContinues(e: Env, s: State)
    requires Keyed(s)
    ensures Continues(s, Finish(e, s))
  {
    hide CloseHeads, RestOfFinish;
    FinishSplits(e, s);
    CloseHeadsContinues(e, s);
    RestOfFinishContinues(e, CloseHeads(e, s));
  }

  lemma FinishCut(f: Env, g: Env, k: nat, s: State)
    requires Twin(f, g, k) && |s.out.trace| <= k && Keyed(s)
    ensures StateCut(Finish(f, s), Finish(g, s), k)
  {
    hide CloseHeads, RestOfFinish, Finish;
    var sf, sg := CloseHeads(f, s), CloseHeads(g, s);
    CloseHeadsCut(f, g, k, s);
    FinishSplits(f, s);
    FinishSplits(g, s);
    if Lost(sf, sg, k) {
      RestOfFinishContinues(f, sf);
      RestOfFinishContinues(g, sg);
      StaysLost(sf, sg, Finish(f, s), Finish(g, s), k);
    } else {
      RestOfFinishCut(f, g, k, sf);
    }
  }

  lemma EpilogueContinues(e: Env, s: State, sawDone: bool)
    requires Keyed(s)
    ensures Continues(s, Epilogue(e, s, sawDone))
  {
    hide Finish;
    FinishContinues(e, s);
  }

  lemma EpilogueCut(f: Env, g: Env, k: nat, s: State, sawDone: bool)
    requires Twin(f, g, k) && |s.out.trace| <= k && Keyed(s)
    ensures StateCut(Epilogue(f, s, sawDone), Epilogue(g, s, sawDone), k)
  {
    hide Finish, FailOut;
    FailCut(f, g, k, s.out, s.out, ClosedEarly);
    FailCut(f, g, k, s.out, s.out, ReasoningOnly);
    FinishCut(f, g, k, s);
  }

  // ---------- whole runs ----------

  lemma OpeningCut(f: Env, g: Env, k: nat)
    requires Twin(f, g, k)
    ensures StateCut(Opening(f), Opening(g), k)
  {
    EmitAllCut(f, g, k, INITIAL.out, INITIAL.out, [CreatedEvent, InProgressEvent]);
  }

  /** The run after the reading phase. */
  function AfterStop(e: Env, s: State, stop: Stop): State
    requires Keyed(s)
  {
    if s.Failed() then s
    else
      match stop
      case StopCancelled => s
      case StopUpstream(m) => s.(out := Emit(e, s.out, FailedEvent(Upstream(m))))
      case StopBroken(m) => s.(out := Emit(e, s.out, FailedEvent(ReadFailure(m))))
      case StopEnd(sawDone) => Epilogue(e, s, sawDone)
  }

  lemma RunSplits(e: Env, turns: seq<Read>)
    ensures Keyed(AfterReads(e, turns))
    ensures Run(e, turns).0 == AfterStop(e, AfterReads(e, turns), Received(turns).stop)
  {
    hide Epilogue, Received;
    FeedKeyed(e, Opening(e), Received(turns).signals);
  }

  lemma AfterStopContinues(e: Env, s: State, stop: Stop)
    requires Keyed(s)
    ensures Continues(s, AfterStop(e, s, stop))
  {
    hide Epilogue;
    if stop.StopEnd? { EpilogueContinues(e, s, stop.sawDone); }
  }

  lemma AfterStopCut(f: Env, g: Env, k: nat, s: State, stop: Stop)
    requires Twin(f, g, k) && |s.out.trace| <= k && Keyed(s)
    ensures StateCut(AfterStop(f, s, stop), AfterStop(g, s, stop), k)
  {
    hide Epilogue;
    if stop.StopEnd? { EpilogueCut(f, g, k, s, stop.sawDone); }
  }

  /**
   With a writer that fails after `k` events, the client has received exactly the first `k` events of the
   fault-free run, or all of them if there are no more.
   */
  lemma WrittenIsPrefix(f: Env, g: Env, k: nat, turns: seq<Read>)
    requires Twin(f, g, k)
    ensures var all := Run(g, turns).0.out.trace;
            Run(f, turns).0.out.trace == if k <= |all| then all[..k] else all
  {
    hide Run, AfterReads, AfterStop, Received;
    RunSplits(f, turns);
    RunSplits(g, turns);
    ReadsCut(f, g, k, turns);
    var sf, sg, stop := AfterReads(f, turns), AfterReads(g, turns), Received(turns).stop;
    if Lost(sf, sg, k) {
      AfterStopContinues(f, sf, stop);
      AfterStopContinues(g, sg, stop);
      StaysLost(sf, sg, AfterStop(f, sf, stop), AfterStop(g, sg, stop), k);
    } else {
      AfterStopCut(f, g, k, sf, stop);
    }
  }

  lemma ReadsCut(f: Env, g: Env, k: nat, turns: seq<Read>)
    requires Twin(f, g, k)
    ensures StateCut(AfterReads(f, turns), AfterReads(g, turns), k)
  {
    hide Feed, Received, Opening;
    OpeningCut(f, g, k);
    FeedCut(f, g, k, Opening(f), Opening(g), Received(turns).signals);
  }
}
