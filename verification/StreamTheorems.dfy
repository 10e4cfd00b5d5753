/**
 Theorems about whole runs of StreamChatToResponses, for every upstream, every tool context and every writer.
 */
module StreamTheorems {
  import opened Common
  import opened Protocol
  import opened Tools
  import opened StreamSpec
  import opened StreamClient
  import opened StreamHistory
  import opened StreamInvariants
  import opened StreamRuns
  import opened StreamAccounting
  import opened StreamCompletion
  import opened StreamFaults
  import Response

  lemma SignalsProper(c: Chunk)
    ensures Proper(Signals(c))
  {
    forall i | 0 <= i < |HeadSignals(c)| ensures HeadSignals(c)[i].SetUsage? || HeadSignals(c)[i].SetFinish? {}
    if c.choices != [] {
      var d := c.choices[0].delta;
      forall i | 0 <= i < |DeltaSignals(d)|
        ensures DeltaSignals(d)[i].ToolPiece?
            || DeltaSignals(d)[i] in [ReasoningPiece(d.reasoning), TextPiece(d.content)]
        ensures (DeltaSignals(d)[i].ReasoningPiece? ==> d.reasoning != "")
        ensures (DeltaSignals(d)[i].TextPiece? ==> d.content != "")
      {
      }
    }
  }

  lemma {:induction false} ReceivedProper(turns: seq<Read>)
    ensures Proper(Received(turns).signals)
  {
    if turns != [] {
      ReceivedProper(turns[1..]);
      if turns[0].line.Data? { SignalsProper(turns[0].line.chunk); }
      ProperConcat(LineSignals(turns[0].line), Received(turns[1..]).signals);
    }
  }

  lemma ProperConcat(a: seq<Signal>, b: seq<Signal>)
    requires Proper(a) && Proper(b)
    ensures Proper(a + b)
  {
  }

  function Ending(e: Env, turns: seq<Read>): Client { Replay(Run(e, turns).0.out.trace) }

  /** The run ended with response.completed or response.incomplete. */
  predicate Completed(e: Env, turns: seq<Read>) {
    var r := Ending(e, turns);
    r.Following? && r.ending.Finished?
  }

  /** What the upstream must do for the stream to complete, read off its signals. */
  predicate Completable(e: Env, turns: seq<Read>) {
    var f := Received(turns);
    && f.stop.StopEnd? && (f.stop.sawDone || FinishOf(f.signals) != "")
    && InOrder(f.signals)
    && !(ReasoningOf(f.signals) != "" && TextOf(f.signals) == "" && Fragments(f.signals) == [])
    && AllNamed(e, Fragments(f.signals))
  }

  /** The client that reads a failed stream knows why it failed. */
  ghost predicate FailsWith(s: State, cause: Cause) {
    var r := Replay(s.out.trace);
    r.Following? && r.ending == Failed(cause)
  }

  lemma AfterInOrder(e: Env, turns: seq<Read>) returns (c: Client)
    requires e.limit.None? && InOrder(Received(turns).signals)
    ensures Inv(e, AfterReads(e, turns), Received(turns).signals, c) && Keyed(AfterReads(e, turns))
  {
    ReceivedProper(turns);
    c := FeedKeeps(e, Received(turns).signals);
    FeedKeyed(e, Opening(e), Received(turns).signals);
  }

  lemma FailureSent(e: Env, s: State, sigs: seq<Signal>, c: Client, cause: Cause)
    requires Inv(e, s, sigs, c)
    ensures var s1 := s.(out := Emit(e, s.out, FailedEvent(cause))); FailsWith(s1, cause) && !s1.Failed()
  {
    EmitLinked(e, s.out, c, FailedEvent(cause));
  }

  lemma EpilogueOutcome(e: Env, s: State, sigs: seq<Signal>, sawDone: bool, c: Client)
    requires Inv(e, s, sigs, c) && Keyed(s)
    ensures var s1 := Epilogue(e, s, sawDone);
            if !sawDone && FinishOf(sigs) == "" then Refused(s1, ClosedEarly)
            else if ReasoningOf(sigs) != "" && TextOf(sigs) == "" && Fragments(sigs) == []
                then Refused(s1, ReasoningOnly)
            else if !AllNamed(e, Fragments(sigs)) then exists idx :: Refused(s1, ToolWithoutName(idx))
            else Completes(e, s1, sigs)
  {
    hide Finish, Completes;
    NoTools(e, s, sigs, c);
    if !sawDone && FinishOf(sigs) == "" {
      FailRefuses(e, s, c, ClosedEarly);
    } else if ReasoningOf(sigs) != "" && TextOf(sigs) == "" && Fragments(sigs) == [] {
      FailRefuses(e, s, c, ReasoningOnly);
    } else if !AllNamed(e, Fragments(sigs)) {
      var idx := FinishRefuses(e, s, sigs, c);
    } else {
      FinishCompletes(e, s, sigs, c);
    }
  }

  /** How a fault-free run ends, for every upstream. */
  ghost predicate Outcomes(e: Env, turns: seq<Read>) {
    var f := Received(turns);
    var s := Run(e, turns).0;
    if !InOrder(f.signals) then RefusedForOrder(s)
    else
      match f.stop
      case StopCancelled => Ending(e, turns).Following? && Ending(e, turns).ending == Running && !s.Failed()
      case StopUpstream(m) => FailsWith(s, Upstream(m)) && !s.Failed()
      case StopBroken(m) => FailsWith(s, ReadFailure(m)) && !s.Failed()
      case StopEnd(sawDone) =>
        if !sawDone && FinishOf(f.signals) == "" then Refused(s, ClosedEarly)
        else if ReasoningOf(f.signals) != "" && TextOf(f.signals) == "" && Fragments(f.signals) == []
            then Refused(s, ReasoningOnly)
        else if !AllNamed(e, Fragments(f.signals)) then exists idx :: Refused(s, ToolWithoutName(idx))
        else Completes(e, s, f.signals)
  }

  lemma RunOutcomes(e: Env, turns: seq<Read>)
    requires e.limit.None?
    ensures Outcomes(e, turns)
  {
    hide Completes, Epilogue, FinishOf, ReasoningOf, TextOf, Fragments, AllNamed, Feed, Received;
    var f := Received(turns);
    ReceivedProper(turns);
    if InOrder(f.signals) {
      var c := AfterInOrder(e, turns);
      var s := AfterReads(e, turns);
      InvLinked(e, s, f.signals, c);
      match f.stop
      case StopCancelled =>
      case StopUpstream(m) => FailureSent(e, s, f.signals, c, Upstream(m));
      case StopBroken(m) => FailureSent(e, s, f.signals, c, ReadFailure(m));
      case StopEnd(sawDone) => EpilogueOutcome(e, s, f.signals, sawDone, c);
    } else {
      var c := FeedKeeps(e, f.signals);
      assert RefusedForOrder(AfterReads(e, turns));
    }
  }

  lemma InvLinked(e: Env, s: State, sigs: seq<Signal>, c: Client)
    requires Inv(e, s, sigs, c)
    ensures !s.Failed() && Replay(s.out.trace) == c && c.Following? && c.ending == Running
  {
  }

  // ---------- the theorems ----------

  /**
   Trace grammar. Whatever the upstream sends and whenever the writer fails, a strict client finds no fault in what
   it receives: created and in_progress come first, events are numbered 1, 2, 3, ..., items open, grow and close in
   the fixed discipline, and nothing follows a terminal event.
   */
  lemma TraceGrammar(e: Env, turns: seq<Read>)
    ensures var trace := Run(e, turns).0.out.trace;
            && Accepts(trace)
            && (forall i :: 0 <= i < |trace| ==> trace[i].sequence == i + 1)
            && (|trace| >= 1 ==> trace[0].body == CreatedEvent) && (|trace| >= 2 ==> trace[1].body == InProgressEvent)
            && (forall i :: 0 <= i < |trace| - 1 ==> !Terminal(trace[i].body))
  {
    hide Run, Outcomes, Replay;
    var g := e.(limit := None);
    var all := Run(g, turns).0.out.trace;
    RunOutcomes(g, turns);
    OutcomeAccepted(g, turns);
    if e.limit.Some? {
      var k := e.limit.value;
      WrittenIsPrefix(e, g, k, turns);
      if k <= |all| { PrefixAccepted(all, k); }
    } else {
      assert e == g;
    }
    AcceptedNumbering(Run(e, turns).0.out.trace);
    AcceptedEndsOnce(Run(e, turns).0.out.trace);
  }

  lemma OutcomeAccepted(e: Env, turns: seq<Read>)
    requires Outcomes(e, turns)
    ensures Accepts(Run(e, turns).0.out.trace)
    ensures !Received(turns).stop.StopCancelled? || !InOrder(Received(turns).signals) ==>
        Ending(e, turns).ending != Running
    ensures Completed(e, turns) <==> Completable(e, turns)
    ensures Completable(e, turns) ==> Completes(e, Run(e, turns).0, Received(turns).signals)
  {
    hide Run, Received, Delivers, SlotsTellStability, Replay;
  }

  /** Without a write failure or cancellation exactly one terminal event is sent, and it is the last one. */
  lemma OneTerminalEvent(e: Env, turns: seq<Read>)
    requires e.limit.None? && !Received(turns).stop.StopCancelled?
    ensures var trace := Run(e, turns).0.out.trace;
            && trace != [] && Terminal(trace[|trace| - 1].body)
            && forall i :: 0 <= i < |trace| - 1 ==> !Terminal(trace[i].body)
  {
    hide Run, Outcomes, Replay, Received;
    RunOutcomes(e, turns);
    OutcomeAccepted(e, turns);
    AcceptedEndsOnce(Run(e, turns).0.out.trace);
  }

  /**
   Exactly which upstream streams complete: those that reach [DONE] or a finish reason, keep reasoning, text and tool
   calls in that order, do not consist of reasoning alone, and name every tool call.
   */
  lemma CompletesIff(e: Env, turns: seq<Read>)
    requires e.limit.None?
    ensures Completed(e, turns) <==> Completable(e, turns)
  {
    hide Run, Outcomes, Replay, Received;
    RunOutcomes(e, turns);
    OutcomeAccepted(e, turns);
  }

  /** The branch for a text delta after the message item was closed is never taken, whether or not the writer fails. */
  lemma TextNeverReopened(e: Env, turns: seq<Read>)
    ensures var err := Run(e, turns).0.out.err;
            err != Some(Rejected(TextReopened)) && err != Some(RejectedUnwritten(TextReopened))
  {
    hide Run, Accounted;
    RunAccounted(e, turns);
  }

  /** Every index up to the next one belongs to a section that was started or, in order of appearance, to a call. */
  ghost predicate IndicesAdd(s: State) {
    && s.nextIndex == Bit(s.reasoning.started) + Bit(s.message.started) + |s.toolOrder|
    && (s.reasoning.started ==> s.reasoning.index == 0)
    && (s.message.started ==> s.message.index == Bit(s.reasoning.started))
    && forall k :: 0 <= k < |s.toolOrder| ==>
         s.toolOrder[k] in s.tools && s.tools[s.toolOrder[k]].outputIndex == Base(s) + k
  }

  /** Index accounting in every reachable state: after any of the signals, and at the end of the run. */
  lemma IndexAccounting(e: Env, turns: seq<Read>, n: nat)
    requires n <= |Received(turns).signals|
    ensures IndicesAdd(Feed(e, Opening(e), Received(turns).signals[..n])) && IndicesAdd(Run(e, turns).0)
  {
    hide Run, Received, Feed, Opening, Accounted, IndicesAdd;
    FeedSteady(e, Received(turns).signals[..n]);
    RunAccounted(e, turns);
    AccountedAdds(Feed(e, Opening(e), Received(turns).signals[..n]));
    AccountedAdds(Run(e, turns).0);
  }

  lemma AccountedAdds(s: State)
    requires Accounted(s)
    ensures IndicesAdd(s)
  {
    AccountedKeyed(s);
  }

  /** The response a completed stream ends with. */
  function FinalResponse(e: Env, turns: seq<Read>): Final
    requires Completed(e, turns)
  {
    Ending(e, turns).ending.response
  }

  /**
   Streaming refines non-streaming. The final response of a completed stream has the status, incomplete reason and
   usage of the non-streaming conversion, and its output list, which the client has already rebuilt from the item
   events, is the non-streaming output of the reassembled message. Ids are chosen differently; the message item
   carries the status known when it was closed.
   */
  lemma StreamingRefines(e: Env, turns: seq<Read>)
    requires e.limit.None? && Completed(e, turns)
    ensures var resp := FinalResponse(e, turns);
            var sigs := Received(turns).signals;
            && resp.status == MapFinishReason(FinishOf(sigs)).0
            && resp.incompleteReason == MapFinishReason(FinishOf(sigs)).1
            && resp.usage == (if UsageOf(sigs).None? then None else Some(ToResponseUsage(UsageOf(sigs).value)))
            && Delivers(e, resp.output, sigs)
            && Rebuilds(Ending(e, turns).slots, resp.output)
  {
    hide Run, Outcomes, Received, Delivers, SlotsTellStability, Completable;
    RunOutcomes(e, turns);
    OutcomeAccepted(e, turns);
    FinishedRebuilds(Run(e, turns).0.out.trace);
  }

  /** A client that follows a trace to a final response has rebuilt its output list. */
  lemma FinishedRebuilds(trace: seq<Event>)
    requires Replay(trace).Following? && Replay(trace).ending.Finished?
    ensures Rebuilds(Replay(trace).slots, Replay(trace).ending.response.output)
  {
  }

  /** `sigs` is the message `m` cut into deltas in some way, ending with the finish reason `finish`. */
  predicate CutsInto(e: Env, m: Reply, finish: string, sigs: seq<Signal>) {
    && InOrder(sigs) && FinishOf(sigs) == finish
    && ReasoningOf(sigs) == m.reasoning && TextOf(sigs) == m.content
    && CallsOf(e, Fragments(sigs), Order(Fragments(sigs))) == m.toolCalls
  }

  /**
   However a message is cut into deltas, and whether the stream ends with [DONE] or with a finish reason, it
   completes, and with a context whose tool_search tools name their execution the output list is that of
   ChatToResponses on the whole message, ids apart. With tool calls the message item keeps the status known at the
   first of them; without, it has the final status.
   */
  lemma CutAnyWay(e: Env, m: Reply, finish: string, turns: seq<Read>)
    requires e.limit.None? && ExecutionsSet(e.tools)
    requires m.refusal == "" && (m.reasoning != "" ==> m.content != "" || m.toolCalls != [])
    requires forall i :: 0 <= i < |m.toolCalls| ==> m.toolCalls[i].name != ""
    requires CutsInto(e, m, finish, Received(turns).signals)
    requires Received(turns).stop == StopEnd(true) || (Received(turns).stop == StopEnd(false) && finish != "")
    ensures Completed(e, turns)
    ensures var resp := FinalResponse(e, turns);
            var sigs := Received(turns).signals;
            var whole := Response.Output(e.codec, e.tools, "", m, MapFinishReason(FinishAtTools(sigs)).0);
            && resp.status == MapFinishReason(finish).0
            && |resp.output| == |whole|
            && forall i: nat :: i < |whole| ==> SameItem(resp.output[i], whole[i])
    ensures m.toolCalls == [] ==> MapFinishReason(FinishAtTools(Received(turns).signals)).0 == MapFinishReason(finish).0
  {
    hide Run, Received, Fragments, Order, CallOf, Delivers, Rebuilds, FinishAtTools, InOrder;
    var sigs := Received(turns).signals;
    var frags := Fragments(sigs);
    CutNames(e, m, finish, sigs);
    CompletesIff(e, turns);
    StreamingRefines(e, turns);
    assert Reassembled(e, sigs) == m;
    DeliveredSame(e, FinalResponse(e, turns).output, sigs);
    if m.toolCalls == [] { LastFinish(sigs); }
  }

  predicate SameItem(o: Option<Item>, item: Item) { o.Some? && WithoutID(o.value) == WithoutID(item) }

  lemma CutNames(e: Env, m: Reply, finish: string, sigs: seq<Signal>)
    requires CutsInto(e, m, finish, sigs)
    requires forall i :: 0 <= i < |m.toolCalls| ==> m.toolCalls[i].name != ""
    ensures AllNamed(e, Fragments(sigs))
    ensures m.toolCalls == [] <==> Fragments(sigs) == []
  {
    hide Fragments, CallOf, Order;
    var frags := Fragments(sigs);
    forall k | 0 <= k < |Order(frags)| ensures CallOf(e, frags, Order(frags)[k]).name != "" {
      assert m.toolCalls[k].name == CallOf(e, frags, Order(frags)[k]).name;
    }
    OrderFacts(frags);
    if frags != [] { assert frags[0] in frags; } else { OrderEmpty(frags); }
  }

  lemma OrderEmpty(frags: seq<ToolDelta>)
    requires frags == []
    ensures Order(frags) == []
  {
  }

  lemma DeliveredSame(e: Env, output: seq<Option<Item>>, sigs: seq<Signal>)
    requires Delivers(e, output, sigs) && ExecutionsSet(e.tools)
    ensures var whole := Response.Output(e.codec, e.tools, "", Reassembled(e, sigs),
                                         MapFinishReason(FinishAtTools(sigs)).0);
            && |output| == |whole|
            && forall i: nat :: i < |whole| ==> SameItem(output[i], whole[i])
  {
    hide FinishAtTools, Fragments, Reassembled, ReasoningOf, TextOf;
    var whole := Expected(e, sigs);
    forall i: nat | i < |whole| ensures SameItem(output[i], whole[i]) {
      assert DeliversAt(e, output, sigs, i);
      assert whole[i] == (ExpectedHeads(e, sigs) + ExpectedTools(e, sigs))[i];
      NotDefaulted(e, sigs, i);
    }
  }

  lemma NotDefaulted(e: Env, sigs: seq<Signal>, i: nat)
    requires ExecutionsSet(e.tools) && i < |ExpectedHeads(e, sigs) + ExpectedTools(e, sigs)|
    ensures var item := (ExpectedHeads(e, sigs) + ExpectedTools(e, sigs))[i]; Defaulted(item) == item
  {
    hide FinishAtTools, Fragments, Reassembled, ReasoningOf, TextOf;
  }

  // ---------- tool calls whose deltas can be trusted ----------

  /** The slot of call number `k` of a completed stream. */
  function ToolSlotAt(e: Env, turns: seq<Read>, k: nat): Option<Slot>
    requires Completed(e, turns)
  {
    var i := HeadCount(Received(turns).signals) + k;
    var slots := Ending(e, turns).slots;
    if i in slots then Some(slots[i]) else None
  }

  /**
   What a client was told while a tool call streamed (its kind, name and id when it was added, its deltas, its `.done`)
   agrees with the item it ends with exactly when the call is Stable: its fragments do not change the identity it was
   announced with, and carry no arguments while it resolves to the other kind.
   */
  lemma ToolFaithfulIff(e: Env, turns: seq<Read>, k: nat)
    requires e.limit.None? && Completed(e, turns)
    requires k < |Order(Fragments(Received(turns).signals))|
    ensures var frags := Fragments(Received(turns).signals);
            var slot := ToolSlotAt(e, turns, k);
            && slot.Some? && slot.value.Closed?
            && (slot.value.faithful <==> Stable(e, frags, Order(frags)[k]))
  {
    hide Run, Outcomes, Received, Delivers, Completable, Stable, Order, Fragments, Replay;
    RunOutcomes(e, turns);
    OutcomeAccepted(e, turns);
    var sigs := Received(turns).signals;
    assert SlotTells(e, Ending(e, turns).slots, sigs, HeadCount(sigs) + k);
  }

  /** Every fragment of index `idx` repeats the first non-empty name and the first non-empty id, or leaves them out. */
  predicate Unchanging(frags: seq<ToolDelta>, idx: int, id: string, name: string) {
    forall i :: 0 <= i < |frags| && IndexOf(frags[i]) == idx ==> frags[i].id in {"", id} && frags[i].name in {"", name}
  }

  /** A call whose id and name never change once set is stable, however late they arrive. */
  lemma {:induction false} UnchangingIsStable(e: Env, frags: seq<ToolDelta>, idx: int, id: string, name: string)
    requires Unchanging(frags, idx, id, name)
    ensures Stable(e, frags, idx)
    ensures var c := CallOf(e, frags, idx);
            && c.id in {"", id} && c.name in {"", name} && c.steady
            && (c.announced.Some? ==>
                  && c.id == id && c.name == name && id != "" && name != ""
                  && c.announced.value == ToolIdentity(e, id, name))
  {
    if frags != [] {
      var before := frags[..|frags| - 1];
      assert forall i :: 0 <= i < |before| ==> before[i] == frags[i];
      UnchangingIsStable(e, before, idx, id, name);
      IdentityKind(e, id, name);
    }
  }

  lemma IdentityKind(e: Env, id: string, name: string)
    ensures ToolIdentity(e, id, name).FunctionCall? <==> KindOf(e, name) == Function
  {
  }

  const RENAMED: seq<ToolDelta> := [ToolDelta(Some(0), "call_1", "read", ""), ToolDelta(Some(0), "", "write", "")]

  /** A stream of one chunk in which a call is renamed after it was announced, and [DONE]. */
  const RENAMED_TURNS: seq<Read> :=
    [Read(Data(Chunk(None, [Choice(Delta("", "", RENAMED), None)])), NoError, false), Read(DoneMarker, NoError, false)]

  /** Such a call is not Stable: the announced name is not the final one. */
  lemma RenamedCallUnstable(e: Env)
    requires e.tools == map[]
    ensures !Stable(e, RENAMED, 0) && Order(RENAMED) == [0] && CallOf(e, RENAMED, 0).name == "write"
  {
    var a, b := RENAMED[0], RENAMED[1];
    assert RENAMED[..1] == [a] && [a][..0] == [];
    var c0 := Extended(e, NO_CALL, a);
    assert CallOf(e, [a], 0) == c0;
    assert CallOf(e, RENAMED, 0) == Extended(e, c0, b);
    assert "read"[0] != "write"[0];
    assert Order([a]) == [0];
  }

  lemma RenamedSignals()
    ensures Received(RENAMED_TURNS) == Intake([ToolPiece(RENAMED[0]), ToolPiece(RENAMED[1])], StopEnd(true))
  {
    assert RENAMED_TURNS[1..] == [Read(DoneMarker, NoError, false)];
    var sigs := LineSignals(RENAMED_TURNS[0].line);
    assert sigs == [ToolPiece(RENAMED[0]), ToolPiece(RENAMED[1])];
    assert sigs + [] == sigs;
  }

  lemma RenamedHistory()
    ensures var sigs := [ToolPiece(RENAMED[0]), ToolPiece(RENAMED[1])];
            Fragments(sigs) == RENAMED && ReasoningOf(sigs) == "" && TextOf(sigs) == "" && InOrder(sigs)
  {
    hide Fragments, ReasoningOf, TextOf;
    var sigs := [ToolPiece(RENAMED[0]), ToolPiece(RENAMED[1])];
    TwoPieces(RENAMED[0], RENAMED[1]);
    PiecesShow(sigs);
  }

  lemma TwoPieces(a: ToolDelta, b: ToolDelta)
    ensures Fragments([ToolPiece(a), ToolPiece(b)]) == [a, b]
  {
    assert [ToolPiece(a), ToolPiece(b)][..1] == [ToolPiece(a)] && [ToolPiece(a)][..0] == [];
    assert Fragments([ToolPiece(a)]) == [a];
  }

  /** End to end: the stream completes, and the client's deltas and announcement of the call are not those of its
      item. */
  lemma RenamedCallMisleads(e: Env)
    requires e.tools == map[] && e.limit.None?
    ensures Completed(e, RENAMED_TURNS)
    ensures var slot := ToolSlotAt(e, RENAMED_TURNS, 0); slot.Some? && slot.value.Closed? && !slot.value.faithful
  {
    hide Run, Received, Stable, Order, CallOf, Fragments, ReasoningOf, TextOf, InOrder, Completed, ToolSlotAt;
    RenamedSignals();
    RenamedHistory();
    RenamedCallUnstable(e);
    CompletesIff(e, RENAMED_TURNS);
    ToolFaithfulIff(e, RENAMED_TURNS, 0);
  }
}
