/**
 What holds of every fault-free run, whatever the upstream sends: signal by signal, then for the whole stream.
 */
module StreamRuns {
  import opened Common
  import opened StreamSpec
  import opened StreamClient
  import opened StreamHistory
  import opened StreamInvariants

  /** The stream was refused: `response.failed` went out last and nothing more will. */
  ghost predicate Refused(s: State, reason: Reason) {
    && s.out.err == Some(Rejected(reason))
    && Replay(s.out.trace).Following? && Replay(s.out.trace).ending == Failed(Conversion(reason))
  }

  ghost predicate RefusedForOrder(s: State) {
    Refused(s, TextAfterTools) || Refused(s, ReasoningReopened) || Refused(s, ReasoningLate)
  }

  /** The signal keeps the order reasoning, text, tools. */
  predicate Fits(sigs: seq<Signal>, sig: Signal) {
    && (sig.ReasoningPiece? ==> TextOf(sigs) == "" && Fragments(sigs) == [])
    && (sig.TextPiece? ==> Fragments(sigs) == [])
  }

  /** Why a signal out of order is refused. */
  function RefusalOf(sigs: seq<Signal>, sig: Signal): Reason {
    if sig.TextPiece? then TextAfterTools
    else if ReasoningOf(sigs) != "" then ReasoningReopened
    else ReasoningLate
  }

  lemma FailRefuses(e: Env, s: State, c: Client, reason: Reason)
    requires e.limit.None? && Linked(s.out, c) && c.seen >= 2 && c.ending == Running
    ensures Refused(FailConversion(e, s, reason), reason)
  {
    EmitLinked(e, s.out, c, FailedEvent(Conversion(reason)));
  }

  lemma LastFinish(sigs: seq<Signal>)
    requires Fragments(sigs) == []
    ensures FinishAtTools(sigs) == FinishOf(sigs)
  {
  }

  lemma NoTools(e: Env, s: State, sigs: seq<Signal>, c: Client)
    requires Inv(e, s, sigs, c)
    ensures |s.tools| == 0 <==> Fragments(sigs) == []
    ensures Fragments(sigs) == [] <==> s.toolOrder == []
  {
    OrderFacts(Fragments(sigs));
  }

  /** The signal adds `r` to the reasoning, `t` to the text, and no tool fragment. */
  lemma TextHistory(sigs: seq<Signal>, sig: Signal, r: string, t: string)
    requires !sig.ToolPiece? && Fragments(sigs) == []
    requires r == (if sig.ReasoningPiece? then sig.text else "") && t == (if sig.TextPiece? then sig.text else "")
    requires !sig.SetFinish? && !sig.SetUsage?
    ensures var sigs1 := sigs + [sig];
            && Fragments(sigs1) == [] && ReasoningOf(sigs1) == ReasoningOf(sigs) + r
            && TextOf(sigs1) == TextOf(sigs) + t
            && FinishOf(sigs1) == FinishOf(sigs) && UsageOf(sigs1) == UsageOf(sigs)
            && FinishAtTools(sigs1) == FinishAtTools(sigs)
  {
    assert (sigs + [sig])[..|sigs|] == sigs;
    LastFinish(sigs);
    LastFinish(sigs + [sig]);
  }

  lemma ReasoningRecorded(e: Env, s: State, s1: State, sigs: seq<Signal>, text: string)
    requires Recorded(e, s, sigs) && text != "" && Fragments(sigs) == [] && TextOf(sigs) == ""
    requires s1 == s.(out := s1.out, nextIndex := s1.nextIndex, reasoning := s1.reasoning)
    requires s1.reasoning == Section(true, true, 0, s.reasoning.text + text)
    ensures Recorded(e, s1, sigs + [ReasoningPiece(text)])
  {
    TextHistory(sigs, ReasoningPiece(text), text, "");
  }

  lemma ReasoningFits(e: Env, s: State, sigs: seq<Signal>, text: string, c: Client) returns (c1: Client)
    requires Inv(e, s, sigs, c) && text != "" && Fits(sigs, ReasoningPiece(text))
    ensures Inv(e, HandleReasoning(e, s, text), sigs + [ReasoningPiece(text)], c1)
  {
    TextHistory(sigs, ReasoningPiece(text), text, "");
    c1 := HandleReasoningSynced(e, s, FinishAtTools(sigs), text, c);
    ReasoningRecorded(e, s, HandleReasoning(e, s, text), sigs, text);
  }

  lemma ReasoningRefused(e: Env, s: State, sigs: seq<Signal>, text: string, c: Client)
    requires Inv(e, s, sigs, c) && !Fits(sigs, ReasoningPiece(text))
    ensures Refused(HandleReasoning(e, s, text), RefusalOf(sigs, ReasoningPiece(text)))
  {
    NoTools(e, s, sigs, c);
    FailRefuses(e, s, c, RefusalOf(sigs, ReasoningPiece(text)));
  }

  lemma HandleTextSynced(e: Env, s: State, finish: string, text: string, c: Client) returns (c1: Client)
    requires Synced(e, s, finish, [], c) && s.toolOrder == [] && |s.tools| == 0
    requires s.message.open <==> s.message.started
    requires !s.message.started ==> s.message.text == ""
    ensures var s1 := HandleText(e, s, text);
            && Synced(e, s1, finish, [], c1)
            && s1 == s.(out := s1.out, outputs := s1.outputs, nextIndex := s1.nextIndex,
                        reasoning := s.reasoning.(open := false), message := s1.message)
            && s1.message.open && s1.message.started && s1.message.text == s.message.text + text
  {
    hide Synced;
    var c0 := FinishReasoningSynced(e, s, finish, [], c);
    var s0 := FinishReasoning(e, s);
    assert !s0.Failed() by { SyncedFine(e, s0, finish, [], c0); }
    c1 := AppendTextSynced(e, s0, finish, text, c0);
  }

  lemma SyncedFine(e: Env, s: State, finish: string, frags: seq<ToolDelta>, c: Client)
    requires Synced(e, s, finish, frags, c)
    ensures !s.Failed()
  {
  }

  lemma TextRecorded(e: Env, s: State, s1: State, sigs: seq<Signal>, text: string)
    requires Recorded(e, s, sigs) && text != "" && Fragments(sigs) == []
    requires s1 == s.(out := s1.out, outputs := s1.outputs, nextIndex := s1.nextIndex,
                      reasoning := s.reasoning.(open := false), message := s1.message)
    requires s1.message.open && s1.message.started && s1.message.text == s.message.text + text
    ensures Recorded(e, s1, sigs + [TextPiece(text)])
  {
    TextHistory(sigs, TextPiece(text), "", text);
  }

  lemma TextFits(e: Env, s: State, sigs: seq<Signal>, text: string, c: Client) returns (c1: Client)
    requires Inv(e, s, sigs, c) && text != "" && Fits(sigs, TextPiece(text))
    ensures Inv(e, HandleText(e, s, text), sigs + [TextPiece(text)], c1)
  {
    hide Synced, HandleText;
    NoTools(e, s, sigs, c);
    TextHistory(sigs, TextPiece(text), "", text);
    c1 := HandleTextSynced(e, s, FinishAtTools(sigs), text, c);
    TextRecorded(e, s, HandleText(e, s, text), sigs, text);
  }

  lemma TextRefused(e: Env, s: State, sigs: seq<Signal>, text: string, c: Client)
    requires Inv(e, s, sigs, c) && !Fits(sigs, TextPiece(text))
    ensures Refused(HandleText(e, s, text), RefusalOf(sigs, TextPiece(text)))
  {
    NoTools(e, s, sigs, c);
    FailRefuses(e, s, c, TextAfterTools);
  }

  /** Closing the reasoning and message items at the first tool call, or at the end. */
  lemma CloseHeadsSynced(e: Env, s: State, sigs: seq<Signal>, c: Client) returns (c1: Client)
    requires Inv(e, s, sigs, c)
    ensures var s1 := CloseHeads(e, s);
            && Synced(e, s1, FinishAtTools(sigs), Fragments(sigs), c1)
            && s1 == s.(out := s1.out, outputs := s1.outputs,
                        reasoning := s.reasoning.(open := false), message := s.message.(open := false))
  {
    NoTools(e, s, sigs, c);
    if Fragments(sigs) == [] { LastFinish(sigs); }
    var f, frags := FinishAtTools(sigs), Fragments(sigs);
    var c0 := FinishReasoningSynced(e, s, f, frags, c);
    c1 := FinishTextSynced(e, FinishReasoning(e, s), f, frags, c0);
  }

  lemma ToolKeeps(e: Env, s: State, sigs: seq<Signal>, d: ToolDelta, c: Client) returns (c1: Client)
    requires Inv(e, s, sigs, c)
    ensures Inv(e, HandleToolCall(e, s, d), sigs + [ToolPiece(d)], c1)
  {
    hide Synced, Recorded, CallsMatch, FinishAtTools, Fragments, AppendTool, FinishText, FinishReasoning;
    var f, frags := FinishAtTools(sigs), Fragments(sigs);
    var c0 := CloseHeadsSynced(e, s, sigs, c);
    var s0 := CloseHeads(e, s);
    HeadsClosed(e, s, sigs, c, s0);
    SyncedFine(e, s0, f, frags, c0);
    c1 := AppendToolSynced(e, s0, f, frags, d, c0);
    PieceHistory(sigs, d);
    ToolRecorded(e, s, AppendTool(e, s0, d), sigs, d);
  }

  lemma HeadsClosed(e: Env, s: State, sigs: seq<Signal>, c: Client, s0: State)
    requires Inv(e, s, sigs, c)
    requires s0 == s.(out := s0.out, outputs := s0.outputs,
                      reasoning := s.reasoning.(open := false), message := s.message.(open := false))
    ensures CallsMatch(e, s0, Fragments(sigs)) && !s0.reasoning.open && !s0.message.open && Recorded(e, s, sigs)
  {
  }

  /** A tool fragment does not move the finish reason known at the first tool call. */
  lemma PieceHistory(sigs: seq<Signal>, d: ToolDelta)
    ensures Fragments(sigs + [ToolPiece(d)]) == Fragments(sigs) + [d]
    ensures FinishAtTools(sigs + [ToolPiece(d)]) == FinishAtTools(sigs)
  {
    assert (sigs + [ToolPiece(d)])[..|sigs|] == sigs;
    if Fragments(sigs) == [] { LastFinish(sigs); }
  }

  lemma OrderGrows(frags: seq<ToolDelta>, d: ToolDelta)
    ensures Order(frags + [d]) != []
  {
    assert (frags + [d])[..|frags|] == frags;
  }

  lemma ToolRecorded(e: Env, s: State, s1: State, sigs: seq<Signal>, d: ToolDelta)
    requires Recorded(e, s, sigs) && CallsMatch(e, s1, Fragments(sigs) + [d])
    requires s1.usage == s.usage && s1.finishReason == s.finishReason
    requires s1.reasoning == s.reasoning.(open := false) && s1.message == s.message.(open := false)
    ensures Recorded(e, s1, sigs + [ToolPiece(d)])
  {
    hide Matches, CallOf, Order;
    var sigs1 := sigs + [ToolPiece(d)];
    assert sigs1[..|sigs|] == sigs;
    assert Fragments(sigs1) == Fragments(sigs) + [d];
    assert ReasoningOf(sigs1) == ReasoningOf(sigs) + "" && TextOf(sigs1) == TextOf(sigs) + "";
    OrderGrows(Fragments(sigs), d);
  }

  lemma HeadHistory(sigs: seq<Signal>, sig: Signal)
    requires sig.SetUsage? || sig.SetFinish?
    ensures var sigs1 := sigs + [sig];
            && Fragments(sigs1) == Fragments(sigs) && ReasoningOf(sigs1) == ReasoningOf(sigs)
            && TextOf(sigs1) == TextOf(sigs)
            && FinishOf(sigs1) == (if sig.SetFinish? then sig.reason else FinishOf(sigs))
            && UsageOf(sigs1) == (if sig.SetUsage? then Some(sig.usage) else UsageOf(sigs))
            && (Fragments(sigs) != [] ==> FinishAtTools(sigs1) == FinishAtTools(sigs))
  {
    assert (sigs + [sig])[..|sigs|] == sigs;
  }

  /** Before the message item is closed, no finish reason has been used. */
  lemma FinishUnused(e: Env, s: State, f: string, f1: string, frags: seq<ToolDelta>, c: Client)
    requires Synced(e, s, f, frags, c) && (s.message.started ==> s.message.open || f == f1)
    ensures Synced(e, s, f1, frags, c)
  {
    hide Accounted, ToolSlots, Linked;
  }

  lemma HeadSynced(e: Env, s: State, s1: State, f: string, frags: seq<ToolDelta>, c: Client)
    requires Synced(e, s, f, frags, c) && s1 == s.(usage := s1.usage, finishReason := s1.finishReason)
    ensures Synced(e, s1, f, frags, c)
  {
    hide ToolSlot, Linked, MessageSlot, ReasoningSlot, CallOf;
  }

  lemma HeadKeeps(e: Env, s: State, sigs: seq<Signal>, sig: Signal, c: Client)
    requires Inv(e, s, sigs, c) && (sig.SetUsage? || sig.SetFinish?)
    ensures Inv(e, Apply(e, s, sig), sigs + [sig], c)
  {
    hide Synced, Matches, CallOf, Order, FinishAtTools, Fragments, ReasoningOf, TextOf, FinishOf, UsageOf;
    var sigs1 := sigs + [sig];
    HeadHistory(sigs, sig);
    NoTools(e, s, sigs, c);
    FinishUnused(e, s, FinishAtTools(sigs), FinishAtTools(sigs1), Fragments(sigs), c);
    SyncedFine(e, s, FinishAtTools(sigs), Fragments(sigs), c);
    HeadSynced(e, s, Apply(e, s, sig), FinishAtTools(sigs1), Fragments(sigs), c);
  }

  /** One signal keeps the invariant, or it is out of order and the stream is refused. */
  lemma ApplyKeeps(e: Env, s: State, sigs: seq<Signal>, sig: Signal, c: Client) returns (c1: Client)
    requires Inv(e, s, sigs, c)
    requires (sig.ReasoningPiece? || sig.TextPiece?) ==> sig.text != ""
    ensures if Fits(sigs, sig) then Inv(e, Apply(e, s, sig), sigs + [sig], c1)
            else Refused(Apply(e, s, sig), RefusalOf(sigs, sig))
  {
    c1 := c;
    match sig {
      case ReasoningPiece(t) =>
        if Fits(sigs, sig) { c1 := ReasoningFits(e, s, sigs, t, c); } else { ReasoningRefused(e, s, sigs, t, c); }
      case TextPiece(t) =>
        if Fits(sigs, sig) { c1 := TextFits(e, s, sigs, t, c); } else { TextRefused(e, s, sigs, t, c); }
      case ToolPiece(d) => c1 := ToolKeeps(e, s, sigs, d, c);
      case _ => HeadKeeps(e, s, sigs, sig, c);
    }
  }

  lemma OpeningInv(e: Env) returns (c: Client)
    requires e.limit.None?
    ensures Inv(e, Opening(e), [], c)
  {
    var b := [CreatedEvent, InProgressEvent];
    TakeTwo(NEW_CLIENT, b[0], b[1]);
    EmitAllLinked(e, INITIAL.out, NEW_CLIENT, b);
    c := TakeAll(NEW_CLIENT, b);
  }

  /** Where the reading phase stands after any signals: in step with them, or refused at the first one out of order. */
  lemma {:induction false} FeedKeeps(e: Env, sigs: seq<Signal>) returns (c: Client)
    requires e.limit.None? && Proper(sigs)
    ensures InOrder(sigs) ==> Inv(e, Feed(e, Opening(e), sigs), sigs, c)
    ensures !InOrder(sigs) ==> RefusedForOrder(Feed(e, Opening(e), sigs))
  {
    if sigs == [] {
      c := OpeningInv(e);
    } else {
      var before, sig := sigs[..|sigs| - 1], sigs[|sigs| - 1];
      var c0 := FeedKeeps(e, before);
      InOrderStep(sigs);
      c := c0;
      if InOrder(before) {
        c := ApplyKeeps(e, Feed(e, Opening(e), before), before, sig, c0);
        assert before + [sig] == sigs;
      }
    }
  }
}
