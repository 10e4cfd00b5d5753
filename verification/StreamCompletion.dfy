/**
 How a fault-free stream ends: what a completed run hands to the client, that it is the non-streaming
 conversion of the reassembled message, and exactly which upstream streams complete.
 */
module StreamCompletion {
  import opened Common
  import opened Protocol
  import opened Tools
  import opened StreamSpec
  import opened StreamClient
  import opened StreamHistory
  import opened StreamInvariants
  import opened StreamFinish
  import opened StreamRuns
  import Response

  /** The complete Chat message the fragments of a stream add up to; a call without an id gets the synthetic one. */
  function Reassembled(e: Env, sigs: seq<Signal>): Reply {
    Reply(ReasoningOf(sigs), TextOf(sigs), "", CallsOf(e, Fragments(sigs), Order(Fragments(sigs))))
  }

  function CallsOf(e: Env, frags: seq<ToolDelta>, order: seq<int>): seq<ToolCall> {
    seq(|order|, k requires 0 <= k < |order| =>
      var c := CallOf(e, frags, order[k]);
      ToolCall(FinalID(e, c, order[k]), c.name, c.args))
  }

  /** An output item without its id, the one part the two conversions choose differently. */
  function WithoutID(item: Item): Item { item.(id := NoID) }

  /** A tool_search call whose context names no execution is run by the client when streamed. */
  function Defaulted(item: Item): Item {
    if item.ToolSearchCall? && item.execution == "" then item.(execution := "client") else item
  }

  predicate AllNamed(e: Env, frags: seq<ToolDelta>) {
    forall k :: 0 <= k < |Order(frags)| ==> CallOf(e, frags, Order(frags)[k]).name != ""
  }

  /** Every tool_search tool has its execution set, as in every context expandTools builds. */
  predicate ExecutionsSet(tools: ToolContext) {
    forall name :: name in tools && tools[name].kind == ToolSearch ==> tools[name].execution != ""
  }

  lemma HeadsRebuilt(e: Env, s: State, finish: string, slots: map<nat, Slot>)
    requires Accounted(s) && HeadSlots(e, s, slots, finish) && !s.reasoning.open && !s.message.open
    ensures |Heads(e, s, finish)| == Base(s)
    ensures forall i: nat :: i < Base(s) ==>
              i in slots && slots[i].Closed? && slots[i].faithful && Heads(e, s, finish)[i] == Some(slots[i].item)
  {
    assert s.reasoning.started ==> Heads(e, s, finish)[0] == Some(ReasoningDone(e, s.reasoning.text));
  }

  /** Call number `k` as the output list and the client have it at the end. */
  ghost predicate ClosedAt(e: Env, s: State, frags: seq<ToolDelta>, slots: map<nat, Slot>, k: nat) {
    && k < |Order(frags)| && Base(s) + k < |s.outputs| && Base(s) + k in slots
    && var idx := Order(frags)[k];
       && idx in s.tools && ClosedRecord(e, s.tools[idx], CallOf(e, frags, idx), idx)
       && s.outputs[Base(s) + k] == Some(ToolDone(e, s.tools[idx]))
       && slots[Base(s) + k] == Closed(ToolDone(e, s.tools[idx]), Stable(e, frags, idx))
  }

  /** Everything is closed. */
  ghost predicate AllClosed(e: Env, s: State, finish: string, frags: seq<ToolDelta>, slots: map<nat, Slot>) {
    && !s.reasoning.open && !s.message.open
    && |s.outputs| == Base(s) + |Order(frags)| && s.outputs[..Base(s)] == Heads(e, s, finish)
    && |Heads(e, s, finish)| == Base(s)
    && (forall i: nat :: i < Base(s) ==> i in slots && slots[i].Closed? && slots[i].faithful)
    && (forall i :: i in slots ==> i < |s.outputs|)
    && (forall k: nat :: k < |Order(frags)| ==> ClosedAt(e, s, frags, slots, k))
  }

  lemma FinishingEnds(e: Env, s: State, finish: string, frags: seq<ToolDelta>, c: Client)
    requires AllFinished(e, s, finish, frags, c)
    ensures AllClosed(e, s, finish, frags, c.slots)
  {
    HeadsRebuilt(e, s, finish, c.slots);
    forall k: nat | k < |Order(frags)| ensures ClosedAt(e, s, frags, c.slots, k) {
      assert ClosedTool(e, s, frags, c, k);
    }
  }

  lemma FinishingStarts(e: Env, s: State, sigs: seq<Signal>, c: Client) returns (c1: Client)
    requires Inv(e, s, sigs, c)
    ensures var s0 := CloseHeads(e, s);
            && Finishing(e, s0, FinishAtTools(sigs), Fragments(sigs), c1, 0) && Keyed(s0) && !s0.Failed()
            && s0 == s.(out := s0.out, outputs := s0.outputs,
                        reasoning := s.reasoning.(open := false), message := s.message.(open := false))
  {
    c1 := CloseHeadsSynced(e, s, sigs, c);
    SyncedStarts(e, CloseHeads(e, s), FinishAtTools(sigs), Fragments(sigs), c1);
  }

  lemma SyncedStarts(e: Env, s: State, finish: string, frags: seq<ToolDelta>, c: Client)
    requires Synced(e, s, finish, frags, c) && CallsMatch(e, s, frags) && !s.reasoning.open && !s.message.open
    ensures Finishing(e, s, finish, frags, c, 0) && Keyed(s)
  {
    HeadsRebuilt(e, s, finish, c.slots);
    AccountedKeyed(s);
    assert s.outputs[..Base(s)] == s.outputs;
    forall k: nat | k < |s.toolOrder| ensures PendingTool(e, s, frags, c, k) {
    }
  }

  /** The state a completed run ends in, described by the signals alone. */
  ghost predicate Completes(e: Env, s: State, sigs: seq<Signal>) {
    var r := Replay(s.out.trace);
    var resp := FinalBody(s).response;
    && s.out.err.None? && r.Following? && r.ending == Finished(resp)
    && resp.status == MapFinishReason(FinishOf(sigs)).0 && resp.incompleteReason == MapFinishReason(FinishOf(sigs)).1
    && resp.usage == (if UsageOf(sigs).None? then None else Some(ToResponseUsage(UsageOf(sigs).value)))
    && Delivers(e, resp.output, sigs)
    && SlotsTellStability(e, r.slots, sigs)
  }

  function ExpectedHeads(e: Env, sigs: seq<Signal>): seq<Item> {
    var m := Reassembled(e, sigs);
    Response.ReasoningOutput("", m) + Response.MessageOutput("", m, MapFinishReason(FinishAtTools(sigs)).0)
  }

  function ExpectedTools(e: Env, sigs: seq<Signal>): seq<Item> {
    Response.ToolOutputs(e.codec, e.tools, "", Reassembled(e, sigs).toolCalls)
  }

  /** The non-streaming output of the reassembled message, with the status the message item had when it was closed. */
  function Expected(e: Env, sigs: seq<Signal>): (items: seq<Item>)
    ensures items == ExpectedHeads(e, sigs) + ExpectedTools(e, sigs)
  {
    Response.Output(e.codec, e.tools, "", Reassembled(e, sigs), MapFinishReason(FinishAtTools(sigs)).0)
  }

  ghost predicate DeliversAt(e: Env, output: seq<Option<Item>>, sigs: seq<Signal>, i: nat) {
    var items := ExpectedHeads(e, sigs) + ExpectedTools(e, sigs);
    i < |output| && i < |items| && output[i].Some? && WithoutID(output[i].value) == WithoutID(Defaulted(items[i]))
  }

  /** The output list is, ids and the default execution apart, the non-streaming output of the reassembled message. */
  ghost predicate Delivers(e: Env, output: seq<Option<Item>>, sigs: seq<Signal>) {
    && |output| == |Expected(e, sigs)|
    && forall i: nat :: i < |output| ==> DeliversAt(e, output, sigs, i)
  }

  /** The number of items before the first tool call. */
  function HeadCount(sigs: seq<Signal>): nat { Bit(ReasoningOf(sigs) != "") + Bit(TextOf(sigs) != "") }

  /** Every text item was faithfully streamed, and a tool call exactly when it was stable. */
  ghost predicate SlotsTellStability(e: Env, slots: map<nat, Slot>, sigs: seq<Signal>) {
    var n := HeadCount(sigs) + |Order(Fragments(sigs))|;
    (forall i :: i in slots ==> i < n) && (forall i: nat :: i < n ==> SlotTells(e, slots, sigs, i))
  }

  ghost predicate SlotTells(e: Env, slots: map<nat, Slot>, sigs: seq<Signal>, i: nat)
    requires i < HeadCount(sigs) + |Order(Fragments(sigs))|
  {
    && i in slots && slots[i].Closed?
    && (slots[i].faithful <==>
        (i >= HeadCount(sigs) ==> Stable(e, Fragments(sigs), Order(Fragments(sigs))[i - HeadCount(sigs)])))
  }

  lemma ToolOutputMatches(e: Env, t: Tool, c: Call, idx: int, k: nat)
    requires ClosedRecord(e, t, c, idx)
    ensures WithoutID(ToolDone(e, t))
            == WithoutID(Defaulted(Response.ToolOutput(e.codec, e.tools, "",
                ToolCall(FinalID(e, c, idx), c.name, c.args), k)))
  {
  }

  lemma HeadsMatch(e: Env, s: State, sigs: seq<Signal>)
    requires Recorded(e, s, sigs) || RecordedClosed(s, sigs)
    requires !s.reasoning.open && !s.message.open
    ensures var h := Heads(e, s, FinishAtTools(sigs));
            var m := Reassembled(e, sigs);
            var st := MapFinishReason(FinishAtTools(sigs)).0;
            var x := Response.ReasoningOutput("", m) + Response.MessageOutput("", m, st);
            && |h| == |x| == HeadCount(sigs) == Base(s)
            && forall i :: 0 <= i < |h| ==> h[i].Some? && WithoutID(h[i].value) == WithoutID(Defaulted(x[i]))
  {
    var m := Reassembled(e, sigs);
    assert m.content != "" ==> Response.MessageParts(m) == [OutputText(m.content)];
  }

  ghost predicate RecordedClosed(s: State, sigs: seq<Signal>) {
    && s.reasoning.text == ReasoningOf(sigs) && (s.reasoning.started <==> ReasoningOf(sigs) != "")
    && s.message.text == TextOf(sigs) && (s.message.started <==> TextOf(sigs) != "")
  }

  lemma HeadsDelivered(e: Env, s: State, sigs: seq<Signal>, slots: map<nat, Slot>, i: nat)
    requires AllClosed(e, s, FinishAtTools(sigs), Fragments(sigs), slots) && RecordedClosed(s, sigs) && i < Base(s)
    ensures i < |ExpectedHeads(e, sigs)| == Base(s)
    ensures s.outputs[i].Some? && WithoutID(s.outputs[i].value) == WithoutID(Defaulted(ExpectedHeads(e, sigs)[i]))
  {
    HeadsMatch(e, s, sigs);
    assert s.outputs[i] == s.outputs[..Base(s)][i];
  }

  lemma ToolDelivered(e: Env, s: State, sigs: seq<Signal>, slots: map<nat, Slot>, k: nat)
    requires ClosedAt(e, s, Fragments(sigs), slots, k)
    ensures k < |ExpectedTools(e, sigs)| == |Order(Fragments(sigs))|
    ensures var o := s.outputs[Base(s) + k];
            o.Some? && WithoutID(o.value) == WithoutID(Defaulted(ExpectedTools(e, sigs)[k]))
  {
    var idx := Order(Fragments(sigs))[k];
    ToolOutputMatches(e, s.tools[idx], CallOf(e, Fragments(sigs), idx), idx, k);
  }

  lemma ItemDelivered(e: Env, s: State, sigs: seq<Signal>, slots: map<nat, Slot>, i: nat)
    requires AllClosed(e, s, FinishAtTools(sigs), Fragments(sigs), slots)
    requires RecordedClosed(s, sigs) && i < |s.outputs|
    ensures DeliversAt(e, s.outputs, sigs, i)
  {
    hide ExpectedHeads, ExpectedTools, WithoutID, Defaulted, Order, Fragments, Heads, ClosedAt, FinishAtTools,
         RecordedClosed;
    HeadsCounted(e, s, sigs, slots);
    if i < Base(s) {
      HeadsDelivered(e, s, sigs, slots, i);
    } else {
      assert ClosedAt(e, s, Fragments(sigs), slots, i - Base(s));
      ToolDelivered(e, s, sigs, slots, i - Base(s));
    }
  }

  lemma HeadsCounted(e: Env, s: State, sigs: seq<Signal>, slots: map<nat, Slot>)
    requires AllClosed(e, s, FinishAtTools(sigs), Fragments(sigs), slots) && RecordedClosed(s, sigs)
    ensures |ExpectedHeads(e, sigs)| == Base(s)
  {
    HeadsMatch(e, s, sigs);
  }

  lemma FinishedDelivers(e: Env, s: State, sigs: seq<Signal>, slots: map<nat, Slot>)
    requires AllClosed(e, s, FinishAtTools(sigs), Fragments(sigs), slots)
    requires RecordedClosed(s, sigs)
    ensures Delivers(e, s.outputs, sigs)
  {
    HeadsMatch(e, s, sigs);
    assert |ExpectedTools(e, sigs)| == |Order(Fragments(sigs))|;
    forall i: nat | i < |s.outputs| ensures DeliversAt(e, s.outputs, sigs, i) {
      ItemDelivered(e, s, sigs, slots, i);
    }
  }

  lemma FinishedSlots(e: Env, s: State, sigs: seq<Signal>, slots: map<nat, Slot>)
    requires AllClosed(e, s, FinishAtTools(sigs), Fragments(sigs), slots) && RecordedClosed(s, sigs)
    ensures SlotsTellStability(e, slots, sigs)
  {
    hide Stable, Order, Fragments, ToolDone, Heads, ReasoningOf, TextOf;
    forall i: nat | i < |s.outputs| ensures SlotTells(e, slots, sigs, i) {
      if i >= Base(s) { assert ClosedAt(e, s, Fragments(sigs), slots, i - Base(s)); }
    }
  }

  /** With every call closed, the stored outputs are exactly what the client has, with no hole. */
  lemma AllRebuilt(e: Env, s: State, finish: string, frags: seq<ToolDelta>, slots: map<nat, Slot>)
    requires AllClosed(e, s, finish, frags, slots)
    requires forall i: nat :: i < Base(s) ==> Heads(e, s, finish)[i] == Some(slots[i].item)
    ensures Rebuilds(slots, s.outputs)
  {
    forall i: nat | i < |s.outputs|
      ensures i in slots && slots[i].Closed? && s.outputs[i] == Some(slots[i].item)
    {
      if i < Base(s) {
        assert s.outputs[i] == s.outputs[..Base(s)][i];
      } else {
        assert ClosedAt(e, s, frags, slots, i - Base(s));
      }
    }
  }

  // ---------- finish ----------

  /** What finish sends last, read by the client: its rebuilt items are the response's output list. */
  lemma FinalAccepted(e: Env, s: State, finish: string, frags: seq<ToolDelta>, c: Client)
    requires AllFinished(e, s, finish, frags, c)
    ensures c.Following?
    ensures var o := Emit(e, s.out, FinalBody(s));
            && o.err.None? && Replay(o.trace) == Following(c.seen + 1, c.slots, Finished(FinalBody(s).response))
  {
    FinishingEnds(e, s, finish, frags, c);
    HeadsRebuilt(e, s, finish, c.slots);
    AllRebuilt(e, s, finish, frags, c.slots);
    EmitLinked(e, s.out, c, FinalBody(s));
  }

  /** A stream whose tool calls all have names is finished by a completed or incomplete response. */
  lemma FinishCompletes(e: Env, s: State, sigs: seq<Signal>, c: Client)
    requires Inv(e, s, sigs, c) && AllNamed(e, Fragments(sigs)) && Keyed(s)
    ensures Completes(e, Finish(e, s), sigs)
  {
    hide Inv, Finish, Finishing, AllFinished, FinishTools, Keyed, FinishAtTools, Fragments, Order, AllClosed, Completes,
      CloseHeads, FinalBody, Emit, Delivers, SlotsTellStability, Replay, CallOf, ReasoningOf, TextOf, FinishOf, UsageOf;
    var c0 := FinishingStarts(e, s, sigs, c);
    var s0 := CloseHeads(e, s);
    var f, frags := FinishAtTools(sigs), Fragments(sigs);
    var c1 := FinishToolsAll(e, s0, f, frags, c0, 0);
    var s1 := FinishTools(e, s0, 0).0;
    FinalAccepted(e, s1, f, frags, c1);
    FinishingEnds(e, s1, f, frags, c1);
    InvRecorded(e, s, sigs, c);
    FinishedDelivers(e, s1, sigs, c1.slots);
    FinishedSlots(e, s1, sigs, c1.slots);
    FinishShape(e, s);
    FinalCompletes(e, s1, s1.(out := Emit(e, s1.out, FinalBody(s1))), sigs, c1);
  }

  lemma InvRecorded(e: Env, s: State, sigs: seq<Signal>, c: Client)
    requires Inv(e, s, sigs, c)
    ensures RecordedClosed(s, sigs) && s.usage == UsageOf(sigs) && s.finishReason == FinishOf(sigs) && !s.Failed()
  {
  }

  lemma FinalCompletes(e: Env, s: State, s1: State, sigs: seq<Signal>, c: Client)
    requires s.usage == UsageOf(sigs) && s.finishReason == FinishOf(sigs) && c.Following?
    requires s1 == s.(out := s1.out) && s1.out.err.None?
    requires Replay(s1.out.trace) == Following(c.seen + 1, c.slots, Finished(FinalBody(s).response))
    requires Delivers(e, s.outputs, sigs) && SlotsTellStability(e, c.slots, sigs)
    ensures Completes(e, s1, sigs)
  {
    hide Delivers, SlotsTellStability, Replay;
  }

  lemma FinishShape(e: Env, s: State)
    requires Keyed(s) && Keyed(CloseHeads(e, s)) && !CloseHeads(e, s).Failed()
    ensures var (s1, returned) := FinishTools(e, CloseHeads(e, s), 0);
            Finish(e, s) == if returned then s1 else s1.(out := Emit(e, s1.out, FinalBody(s1)))
  {
  }

  lemma NamelessTool(e: Env, s: State, idx: int)
    requires idx in s.tools && s.tools[idx].name == ""
    ensures FinishTool(e, s, idx) == (FailConversion(e, s, ToolWithoutName(idx)), true)
  {
  }

  /** The rest of finish's loop, when some call still to come has no name: the first of them ends the stream. */
  lemma {:induction false} FinishToolsRefuse(e: Env, s: State, finish: string, frags: seq<ToolDelta>, c: Client,
                                             k: nat) returns (idx: int)
    requires Finishing(e, s, finish, frags, c, k) && Keyed(s)
    requires k <= |s.toolOrder| && exists j :: k <= j < |Order(frags)| && CallOf(e, frags, Order(frags)[j]).name == ""
    ensures var (s1, returned) := FinishTools(e, s, k);
            returned && Refused(s1, ToolWithoutName(idx))
    decreases |s.toolOrder| - k
  {
    hide Finishing, FinishTools, FinishTool;
    FinishingBound(e, s, finish, frags, c, k);
    idx := s.toolOrder[k];
    NextPending(e, s, finish, frags, c, k);
    FinishToolsTurn(e, s, k);
    if s.tools[idx].name == "" {
      FailRefuses(e, s, c, ToolWithoutName(idx));
      NamelessTool(e, s, idx);
    } else {
      var c0 := FinishToolStep(e, s, finish, frags, c, k);
      idx := FinishToolsRefuse(e, FinishTool(e, s, s.toolOrder[k]).0, finish, frags, c0, k + 1);
    }
  }

  /** The first tool call without a name ends the stream with a failure. */
  lemma FinishRefuses(e: Env, s: State, sigs: seq<Signal>, c: Client) returns (idx: int)
    requires Inv(e, s, sigs, c) && !AllNamed(e, Fragments(sigs)) && Keyed(s)
    ensures Refused(Finish(e, s), ToolWithoutName(idx))
  {
    var c0 := FinishingStarts(e, s, sigs, c);
    idx := FinishToolsRefuse(e, CloseHeads(e, s), FinishAtTools(sigs), Fragments(sigs), c0, 0);
    FinishShape(e, s);
  }
}
