/**
 A streamed turn and what follows it: what is saved of it is what was sent, and the client's replay of the streamed
 output comes back like that of a reply converted in one piece. (convert/stream.go result, server/server.go)
 */
module StreamTurn {
  import opened Common
  import opened Json
  import opened Protocol
  import opened Tools
  import opened StreamSpec
  import opened StreamClient
  import opened StreamHistory
  import opened StreamInvariants
  import opened StreamFinish
  import opened StreamRuns
  import opened StreamCompletion
  import T = StreamTheorems
  import InputSpec
  import Response
  import Expand
  import RoundTrip
  import LruSpec
  import CrossTurn

  // ---------- what is saved ----------

  /** The records of a finished stream say what its signals add up to. */
  ghost predicate Gathered(e: Env, s: State, sigs: seq<Signal>) {
    && s.reasoning.text == ReasoningOf(sigs) && s.message.text == TextOf(sigs) && s.usage == UsageOf(sigs)
    && s.toolOrder == Order(Fragments(sigs)) && Keyed(s) && s.out.err.None?
    && (forall k :: 0 <= k < |s.toolOrder| ==>
          s.tools[s.toolOrder[k]].callID == FinalID(e, CallOf(e, Fragments(sigs), s.toolOrder[k]), s.toolOrder[k]))
  }

  lemma FinishGathers(e: Env, s: State, sigs: seq<Signal>, c: Client)
    requires Inv(e, s, sigs, c) && AllNamed(e, Fragments(sigs)) && Keyed(s)
    ensures Gathered(e, Finish(e, s), sigs)
  {
    hide Inv, Finish, Finishing, AllFinished, FinishTools, FinishAtTools, Fragments, Order, AllClosed, Completes,
      CloseHeads, FinalBody, Emit, Replay, CallOf, ReasoningOf, TextOf, FinishOf, UsageOf;
    var c0 := FinishingStarts(e, s, sigs, c);
    var s0 := CloseHeads(e, s);
    var f, frags := FinishAtTools(sigs), Fragments(sigs);
    var c1 := FinishToolsAll(e, s0, f, frags, c0, 0);
    var s1 := FinishTools(e, s0, 0).0;
    FinalAccepted(e, s1, f, frags, c1);
    InvRecorded(e, s, sigs, c);
    FinishShape(e, s);
    ClosedGathered(e, s1, f, frags, c1);
  }

  lemma ClosedGathered(e: Env, s: State, finish: string, frags: seq<ToolDelta>, c: Client)
    requires AllFinished(e, s, finish, frags, c)
    ensures s.toolOrder == Order(frags) && Keyed(s)
    ensures forall k :: 0 <= k < |s.toolOrder| ==>
              s.tools[s.toolOrder[k]].callID == FinalID(e, CallOf(e, frags, s.toolOrder[k]), s.toolOrder[k])
  {
    hide Order, CallOf, FinalID;
    forall k: nat | k < |s.toolOrder|
      ensures s.toolOrder[k] in s.tools
      ensures s.tools[s.toolOrder[k]].callID == FinalID(e, CallOf(e, frags, s.toolOrder[k]), s.toolOrder[k])
    {
      assert ClosedTool(e, s, frags, c, k);
    }
  }

  lemma {:induction false} IDsGathered(e: Env, s: State, sigs: seq<Signal>, n: nat)
    requires Gathered(e, s, sigs) && n <= |s.toolOrder|
    ensures CallIDs(s, n) == CrossTurn.NonEmptyIDs(Reassembled(e, sigs).toolCalls[..n])
  {
    hide ReasoningOf, TextOf, UsageOf, Order, Fragments, FinalID;
    var calls := Reassembled(e, sigs).toolCalls;
    if n > 0 {
      IDsGathered(e, s, sigs, n - 1);
      assert calls[..n][..n - 1] == calls[..n - 1];
    }
  }

  /** What a completed stream returns for saving is the reassembled message: its reasoning, its text and the ids of its
      calls, the synthetic ones included; its reasoning is saved under exactly the ids the client was sent. */
  lemma SavesWhatItSent(e: Env, turns: seq<Read>)
    requires e.limit.None? && T.Completed(e, turns)
    ensures var m := Reassembled(e, Received(turns).signals);
            var outcome := Run(e, turns).1;
            && outcome.error.None?
            && outcome.result == StreamResult(UsageOf(Received(turns).signals), CrossTurn.NonEmptyIDs(m.toolCalls),
                                              m.reasoning, m.content)
  {
    hide Received, Replay, UsageOf, ReasoningOf, TextOf, FinishOf, Fragments, InOrder, AllNamed, Finish, Order, CallOf,
         Feed;
    T.CompletesIff(e, turns);
    var sigs := Received(turns).signals;
    var c := T.AfterInOrder(e, turns);
    var s := AfterReads(e, turns);
    T.InvLinked(e, s, sigs, c);
    NoTools(e, s, sigs, c);
    FinishGathers(e, s, sigs, c);
    var s1 := Finish(e, s);
    EndsInFinish(e, turns, c);
    IDsGathered(e, s1, sigs, |s1.toolOrder|);
    assert Reassembled(e, sigs).toolCalls[..|s1.toolOrder|] == Reassembled(e, sigs).toolCalls;
  }

  lemma EndsInFinish(e: Env, turns: seq<Read>, c: Client)
    requires e.limit.None? && T.Completable(e, turns) && Keyed(AfterReads(e, turns))
    requires Inv(e, AfterReads(e, turns), Received(turns).signals, c)
    ensures Keyed(Finish(e, AfterReads(e, turns)))
    ensures Run(e, turns) == (Finish(e, AfterReads(e, turns)), ResultOf(Finish(e, AfterReads(e, turns))))
  {
    hide Received, Replay, UsageOf, FinishOf, Fragments, InOrder, AllNamed, Finish, Order, CallOf, Feed, ReasoningOf,
         TextOf;
    var s := AfterReads(e, turns);
    T.InvLinked(e, s, Received(turns).signals, c);
    NoTools(e, s, Received(turns).signals, c);
    InvRecorded(e, s, Received(turns).signals, c);
    EpilogueKeyed(e, s, Received(turns).stop.sawDone);
  }

  // ---------- what is replayed ----------

  function Values(output: seq<Option<Item>>): (r: seq<Item>)
    requires forall i :: 0 <= i < |output| ==> output[i].Some?
    ensures |r| == |output| && forall i :: 0 <= i < |output| ==> r[i] == output[i].value
  {
    seq(|output|, i requires 0 <= i < |output| => output[i].value)
  }

  /** Without its id, an item is replayed the same, unless the id has to stand in for a missing call id. */
  lemma IDUnused(c: Codec, a: Item, b: Item)
    requires WithoutID(a) == WithoutID(b) && (a.ToolSearchCall? ==> a.callID != "")
    ensures a.IsTool() ==>
      && RoundTrip.ReplayItem(a).CallIn?
      && InputSpec.CallOfItem(c, RoundTrip.ReplayItem(a)) == InputSpec.CallOfItem(c, RoundTrip.ReplayItem(b))
    ensures !a.IsTool() ==> RoundTrip.ReplayItem(a) == RoundTrip.ReplayItem(b)
  {
    hide RoundTrip.PartValues, IDText, WrapCustomToolInput;
  }

  lemma IDsGiven(e: Env, sigs: seq<Signal>, i: nat)
    requires i < |Reassembled(e, sigs).toolCalls|
    ensures Reassembled(e, sigs).toolCalls[i].id != ""
  {
    SyntheticNonEmpty(e, Order(Fragments(sigs))[i]);
  }

  /** The call in place `j` of the streamed output is replayed like that of the whole reply. */
  lemma StreamedCall(e: Env, m: Reply, o: Option<Item>, i: nat)
    requires i < |m.toolCalls| && m.toolCalls[i].id != ""
    requires T.SameItem(o, Response.ToolOutput(e.codec, e.tools, "", m.toolCalls[i], i))
    ensures o.Some? && RoundTrip.ReplayItem(o.value).CallIn?
    ensures InputSpec.CallOfItem(e.codec, RoundTrip.ReplayItem(o.value))
        == RoundTrip.Cycled(e.codec, e.tools, "", m.toolCalls[i], i)
  {
    hide InputSpec.CallOfItem, ResolveTool, UnwrapCustomToolInput, NormalizeToolSearchArguments;
    var whole := Response.ToolOutput(e.codec, e.tools, "", m.toolCalls[i], i);
    SameCallID(o.value, whole);
    IDUnused(e.codec, o.value, whole);
  }

  lemma SameCallID(a: Item, b: Item)
    requires WithoutID(a) == WithoutID(b) && b.IsTool()
    ensures a.IsTool() && a.callID == b.callID
  {
  }

  ghost predicate SameItems(output: seq<Option<Item>>, whole: seq<Item>) {
    |output| == |whole| && forall i: nat :: i < |whole| ==> T.SameItem(output[i], whole[i])
  }

  lemma SameAt(output: seq<Option<Item>>, whole: seq<Item>, i: nat)
    requires SameItems(output, whole) && i < |whole|
    ensures i < |output| && output[i].Some? && T.SameItem(output[i], whole[i])
    ensures WithoutID(output[i].value) == WithoutID(whole[i])
  {
  }

  lemma AllThere(output: seq<Option<Item>>, whole: seq<Item>)
    requires SameItems(output, whole)
    ensures forall i :: 0 <= i < |output| ==> output[i].Some?
  {
    forall i: nat | i < |output| ensures output[i].Some? { SameAt(output, whole, i); }
  }

  lemma StreamedCallAt(e: Env, m: Reply, status: Status, output: seq<Option<Item>>, i: nat)
    requires i < |m.toolCalls| && m.toolCalls[i].id != ""
    requires SameItems(output, Response.Output(e.codec, e.tools, "", m, status))
    requires forall i :: 0 <= i < |output| ==> output[i].Some?
    ensures RoundTrip.CallAt(e.codec, RoundTrip.Replay(Values(output)), RoundTrip.CallsAt(m) + i,
                             RoundTrip.Cycled(e.codec, e.tools, "", m.toolCalls[i], i))
  {
    hide Response.Output, Response.ToolOutput, RoundTrip.ReplayItem, WithoutID, RoundTrip.Cycled, InputSpec.CallOfItem,
         SameItems, T.SameItem, Response.MessageParts, RoundTrip.CallsAt;
    var whole := Response.Output(e.codec, e.tools, "", m, status);
    RoundTrip.OutputShape(e.codec, e.tools, "", m, status);
    SameAt(output, whole, RoundTrip.CallsAt(m) + i);
    StreamedCall(e, m, output[RoundTrip.CallsAt(m) + i], i);
    assert RoundTrip.Replay(Values(output))[RoundTrip.CallsAt(m) + i]
        == RoundTrip.ReplayItem(output[RoundTrip.CallsAt(m) + i].value);
  }

  lemma StreamedHeads(e: Env, m: Reply, status: Status, output: seq<Option<Item>>)
    requires SameItems(output, Response.Output(e.codec, e.tools, "", m, status))
    requires forall i :: 0 <= i < |output| ==> output[i].Some?
    ensures var items := RoundTrip.Replay(Values(output));
            var r, h := RoundTrip.TextAt(m), RoundTrip.CallsAt(m);
            && |items| == h + |m.toolCalls|
            && (m.reasoning != "" ==> items[0] == InputSpec.ReasoningIn([m.reasoning]))
            && (h > r ==> items[r] == InputSpec.MessageIn("assistant",
                Some(Arr(RoundTrip.PartValues(Response.MessageParts(m))))))
  {
    hide Response.Output, Response.ToolOutput, RoundTrip.ReplayItem, WithoutID, SameItems, T.SameItem,
         Response.MessageParts, RoundTrip.PartValues;
    var whole := Response.Output(e.codec, e.tools, "", m, status);
    RoundTrip.OutputShape(e.codec, e.tools, "", m, status);
    assert |output| == |whole| by { SameLength(output, whole); }
    if m.reasoning != "" {
      SameAt(output, whole, 0);
      StreamedHead(e.codec, output[0].value, whole[0]);
    }
    if RoundTrip.CallsAt(m) > RoundTrip.TextAt(m) {
      SameAt(output, whole, RoundTrip.TextAt(m));
      StreamedHead(e.codec, output[RoundTrip.TextAt(m)].value, whole[RoundTrip.TextAt(m)]);
    }
  }

  lemma SameLength(output: seq<Option<Item>>, whole: seq<Item>)
    requires SameItems(output, whole)
    ensures |output| == |whole|
  {
  }

  lemma StreamedReplays(e: Env, m: Reply, status: Status, output: seq<Option<Item>>)
    requires forall i :: 0 <= i < |m.toolCalls| ==> m.toolCalls[i].id != ""
    requires SameItems(output, Response.Output(e.codec, e.tools, "", m, status))
    ensures forall i :: 0 <= i < |output| ==> output[i].Some?
    ensures RoundTrip.Replays(e.codec, RoundTrip.Replay(Values(output)), m,
                              RoundTrip.CycledCalls(e.codec, e.tools, "", m.toolCalls))
  {
    hide Response.Output, RoundTrip.Cycled, SameItems, Response.MessageParts, RoundTrip.PartValues, RoundTrip.CallAt,
         RoundTrip.CallsAt, RoundTrip.TextAt;
    AllThere(output, Response.Output(e.codec, e.tools, "", m, status));
    StreamedHeads(e, m, status, output);
    forall i | 0 <= i < |m.toolCalls|
      ensures RoundTrip.CallAt(e.codec, RoundTrip.Replay(Values(output)), RoundTrip.CallsAt(m) + i,
                               RoundTrip.Cycled(e.codec, e.tools, "", m.toolCalls[i], i))
    {
      StreamedCallAt(e, m, status, output, i);
    }
  }

  lemma StreamedHead(c: Codec, a: Item, b: Item)
    requires WithoutID(a) == WithoutID(b) && !b.IsTool()
    ensures RoundTrip.ReplayItem(a) == RoundTrip.ReplayItem(b)
    ensures b.ReasoningItem? ==> RoundTrip.ReplayItem(b) == InputSpec.ReasoningIn(b.summary)
    ensures b.MessageItem? ==>
        RoundTrip.ReplayItem(b) == InputSpec.MessageIn("assistant", Some(Arr(RoundTrip.PartValues(b.content))))
  {
    IDUnused(c, a, b);
  }

  /**
   A streamed turn comes back like a whole one: the client's replay of the output of a completed stream is parsed to the
   text and the calls of the reassembled message, each call as its own round trip leaves it.
   */
  lemma StreamedTurnComesBack(e: Env, turns: seq<Read>, source: InputSpec.Source)
    requires e.limit.None? && T.Completed(e, turns) && ExecutionsSet(e.tools)
    ensures var m := Reassembled(e, Received(turns).signals);
            var output := T.FinalResponse(e, turns).output;
            var s := InputSpec.Setting(e.codec, source);
            && (forall i :: 0 <= i < |output| ==> output[i].Some?)
            && InputSpec.Parsed(s, InputSpec.ItemsInput(RoundTrip.Replay(Values(output))))
            == Ok(RoundTrip.TurnMessages(s, m, RoundTrip.CycledCalls(e.codec, e.tools, "", m.toolCalls)))
  {
    hide Received, Run, FinishOf, UsageOf, Reassembled, Delivers, FinishAtTools, Rebuilds, InputSpec.Parsed,
         RoundTrip.TurnMessages, RoundTrip.Replays, Response.Output, RoundTrip.Replay, RoundTrip.CycledCalls;
    var sigs := Received(turns).signals;
    var m := Reassembled(e, sigs);
    var output := T.FinalResponse(e, turns).output;
    T.StreamingRefines(e, turns);
    T.DeliveredSame(e, output, sigs);
    forall i | 0 <= i < |m.toolCalls| ensures m.toolCalls[i].id != "" { IDsGiven(e, sigs, i); }
    StreamedReplays(e, m, MapFinishReason(FinishAtTools(sigs)).0, output);
    RoundTrip.ReplaysParse(InputSpec.Setting(e.codec, source), RoundTrip.Replay(Values(output)), m,
                           RoundTrip.CycledCalls(e.codec, e.tools, "", m.toolCalls));
  }

  lemma {:induction false} FirstOfIDs(calls: seq<ToolCall>)
    requires calls != [] && calls[0].id != ""
    ensures CrossTurn.NonEmptyIDs(calls) != [] && CrossTurn.NonEmptyIDs(calls)[0] == calls[0].id
  {
    if |calls| > 1 { FirstOfIDs(calls[..|calls| - 1]); }
  }

  /** A context built by expandTools names an execution for every tool_search tool. */
  lemma ExpandedExecutions(tools: ToolContext)
    requires Expand.LeadsBack(tools)
    ensures ExecutionsSet(tools)
  {
    forall name | name in tools && tools[name].kind == ToolSearch ensures tools[name].execution != "" {
      assert Expand.EntryLeadsBack(name, tools[name]);
    }
  }

  /** The caches still know the text and the first call of what a stream returned. */
  ghost predicate StillKept(r: StreamResult, hash: string -> int, calls: seq<LruSpec.Op<string>>,
                            texts: seq<LruSpec.Op<int>>, t: int, laterCalls: seq<LruSpec.Op<string>>,
                            laterTexts: seq<LruSpec.Op<int>>, cap: nat, ttl: int)
  {
    && (r.toolCallIDs != [] ==>
          CrossTurn.CallKept(calls, r.toolCallIDs, r.reasoningText, t, laterCalls, r.toolCallIDs[0], cap, ttl))
    && (r.contentText != "" ==>
          CrossTurn.TextKept(hash, texts, r.contentText, r.reasoningText, t, laterTexts, cap, ttl))
  }

  /**
   The whole loop for a streamed turn: it is sent, what it returned is saved, the client replays what it was sent, and
   as long as the caches keep it the request rebuilt from the replay is the reassembled text and calls, both carrying
   exactly the reasoning of the turn.
   */
  lemma StreamedTurnSurvives(e: Env, turns: seq<Read>, hash: string -> int, calls: seq<LruSpec.Op<string>>,
                             texts: seq<LruSpec.Op<int>>, t: int, laterCalls: seq<LruSpec.Op<string>>,
                             laterTexts: seq<LruSpec.Op<int>>, cap: nat, ttl: int, now: int)
    requires e.limit.None? && T.Completed(e, turns) && Expand.LeadsBack(e.tools) && Lawful(e.codec)
    requires cap >= 1 && now <= t + ttl
    requires Run(e, turns).1.result.reasoningText != ""
    requires StillKept(Run(e, turns).1.result, hash, calls, texts, t, laterCalls, laterTexts, cap, ttl)
    ensures var m := Reassembled(e, Received(turns).signals);
            var r := Run(e, turns).1.result;
            var output := T.FinalResponse(e, turns).output;
            var allCalls := calls + CrossTurn.CallWrites(r.toolCallIDs, r.reasoningText, t) + laterCalls;
            var allTexts := texts + CrossTurn.TextWrites(hash, r.contentText, r.reasoningText, t) + laterTexts;
            var source := CrossTurn.Snapshot(hash, allCalls, allTexts, cap, ttl, now);
            && (forall i :: 0 <= i < |output| ==> output[i].Some?)
            && InputSpec.Parsed(InputSpec.Setting(e.codec, source),
                                InputSpec.ItemsInput(RoundTrip.Replay(Values(output))))
            == Ok(CrossTurn.WithReasoning(m, RoundTrip.CycledCalls(e.codec, e.tools, "", m.toolCalls)))
  {
    hide Received, Run, Reassembled, InputSpec.Parsed, RoundTrip.TurnMessages, RoundTrip.Cycled, RoundTrip.Replay,
         CrossTurn.Snapshot, CrossTurn.CallWrites, CrossTurn.TextWrites, CrossTurn.CallKept, CrossTurn.TextKept,
         CrossTurn.WithReasoning, CrossTurn.NonEmptyIDs, T.FinalResponse, T.Completed;
    var m := Reassembled(e, Received(turns).signals);
    var r := Run(e, turns).1.result;
    var source := CrossTurn.Snapshot(hash, calls + CrossTurn.CallWrites(r.toolCallIDs, r.reasoningText, t) + laterCalls,
                    texts + CrossTurn.TextWrites(hash, r.contentText, r.reasoningText, t) + laterTexts, cap, ttl, now);
    ExpandedExecutions(e.tools);
    SavesWhatItSent(e, turns);
    StreamedTurnComesBack(e, turns, source);
    if m.toolCalls != [] {
      IDsGiven(e, Received(turns).signals, 0);
      FirstOfIDs(m.toolCalls);
      RoundTrip.CallComesBack(e.codec, e.tools, "", m.toolCalls[0], 0);
    }
    CrossTurn.KeptTurn(InputSpec.Setting(e.codec, source), m, RoundTrip.CycledCalls(e.codec, e.tools, "", m.toolCalls),
                       hash, calls, texts, t, laterCalls, laterTexts, cap, ttl, now);
  }
}
