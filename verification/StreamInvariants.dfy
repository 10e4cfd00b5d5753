/**
 The invariants of a fault-free stream, kept by every signal: index accounting, agreement with the signals
 received so far, and agreement with a strict client that read every event sent so far.
 */
module StreamInvariants {
  import opened Common
  import opened Protocol
  import opened Tools
  import opened StreamSpec
  import opened StreamClient
  import opened StreamHistory

  function Bit(b: bool): nat { if b then 1 else 0 }

  /** The output index of the first tool call. */
  function Base(s: State): nat { Bit(s.reasoning.started) + Bit(s.message.started) }

  // ---------- index accounting ----------

  ghost predicate Accounted(s: State) {
    && s.nextIndex == Base(s) + |s.toolOrder|
    && |s.tools| == |s.toolOrder|
    && (forall j, k :: 0 <= j < k < |s.toolOrder| ==> s.toolOrder[j] != s.toolOrder[k])
    && (forall idx :: idx in s.tools <==> idx in s.toolOrder)
    && (forall k :: 0 <= k < |s.toolOrder| ==> s.tools[s.toolOrder[k]].outputIndex == Base(s) + k)
    && (s.reasoning.started ==> s.reasoning.index == 0)
    && (s.message.started ==> s.message.index == Bit(s.reasoning.started))
    && (s.reasoning.open ==> s.reasoning.started && !s.message.started && s.toolOrder == [])
    && (s.message.open ==> s.message.started && s.toolOrder == [])
  }

  lemma AccountedKeyed(s: State)
    requires Accounted(s)
    ensures Keyed(s)
  {
    forall k | 0 <= k < |s.toolOrder| ensures s.toolOrder[k] in s.tools {
      var idx := s.toolOrder[k];
      assert idx in s.toolOrder;
    }
  }

  /** The closed reasoning and message items. */
  function Heads(e: Env, s: State, finish: string): seq<Option<Item>> {
    (if s.reasoning.started && !s.reasoning.open then [Some(ReasoningDone(e, s.reasoning.text))] else [])
    + (if s.message.started && !s.message.open then [Some(MessageDone(e, finish, s.message.text))] else [])
  }

  // ---------- agreement with the signals ----------

  ghost predicate Matches(t: Tool, c: Call) {
    t.callID == c.id && t.name == c.name && t.args == c.args && (t.added <==> c.announced.Some?)
  }

  ghost predicate Recorded(e: Env, s: State, sigs: seq<Signal>) {
    && s.usage == UsageOf(sigs) && s.finishReason == FinishOf(sigs)
    && s.reasoning.text == ReasoningOf(sigs) && (s.reasoning.started <==> ReasoningOf(sigs) != "")
    && s.message.text == TextOf(sigs) && (s.message.started <==> TextOf(sigs) != "")
    && s.toolOrder == Order(Fragments(sigs))
    && (forall idx :: idx in s.tools ==> Matches(s.tools[idx], CallOf(e, Fragments(sigs), idx)))
    && (s.reasoning.open <==> s.reasoning.started && !s.message.started && s.toolOrder == [])
    && (s.message.open <==> s.message.started && s.toolOrder == [])
  }

  // ---------- agreement with the client ----------

  ghost predicate Linked(o: Out, c: Client) {
    o.err.None? && c.Following? && Replay(o.trace) == c && c.seen == o.sequence == |o.trace|
  }

  function Take(c: Client, body: Body): Client { if c.Following? then Receive(c, body) else c }

  function TakeAll(c: Client, bodies: seq<Body>): Client {
    if bodies == [] then c else Take(TakeAll(c, bodies[..|bodies| - 1]), bodies[|bodies| - 1])
  }

  /** Sending events to a writer that does not fail is the client receiving them. */
  lemma EmitLinked(e: Env, o: Out, c: Client, body: Body)
    requires e.limit.None? && Linked(o, c) && Take(c, body).Following?
    ensures Linked(Emit(e, o, body), Take(c, body))
  {
    var o1 := Emit(e, o, body);
    assert o1.trace[..|o1.trace| - 1] == o.trace;
  }

  lemma {:induction false} EmitAllLinked(e: Env, o: Out, c: Client, bodies: seq<Body>)
    requires e.limit.None? && Linked(o, c) && TakeAll(c, bodies).Following?
    ensures Linked(EmitAll(e, o, bodies), TakeAll(c, bodies))
  {
    if bodies != [] {
      var before := bodies[..|bodies| - 1];
      EmitAllLinked(e, o, c, before);
      EmitLinked(e, EmitAll(e, o, before), TakeAll(c, before), bodies[|bodies| - 1]);
    }
  }

  lemma TakeNone(c: Client)
    ensures TakeAll(c, []) == c
  {
  }

  lemma TakeTwo(c: Client, a: Body, b: Body)
    ensures TakeAll(c, [a]) == Take(c, a)
    ensures TakeAll(c, [a, b]) == Take(Take(c, a), b)
  {
    assert [a][..0] == [] && [a, b][..1] == [a];
  }

  lemma TakeThree(c: Client, a: Body, b: Body, d: Body)
    ensures TakeAll(c, [a, b, d]) == Take(Take(Take(c, a), b), d)
  {
    TakeTwo(c, a, b);
    assert [a, b, d][..2] == [a, b];
  }

  function ReasoningSlot(e: Env, p: Section): Slot {
    if p.open then Open(ReasoningItem(RsID(e), InProgress, []), Streaming, p.text, true)
    else Closed(ReasoningDone(e, p.text), true)
  }

  function MessageSlot(e: Env, p: Section, finish: string): Slot {
    if p.open then Open(MessageItem(MsgID(e), InProgress, []), Streaming, p.text, true)
    else Closed(MessageDone(e, finish, p.text), true)
  }

  /** The open slot of an announced call: announced as recorded, and faithful so far exactly when the call was
      steady. */
  ghost predicate ToolSlot(slot: Slot, t: Tool, c: Call) {
    && slot.Open? && slot.stage == Fresh && slot.item.IsTool() && slot.item.id == t.itemID
    && c.announced == Some(Identity(slot.item))
    && (c.steady <==> slot.faithful && (slot.item.FunctionCall? ==> slot.acc == t.args))
    && (slot.item.FunctionCall? ==> slot.acc == t.args || |slot.acc| < |t.args|)
    && (!slot.item.FunctionCall? && slot.faithful ==> slot.acc == "")
  }

  ghost predicate HeadSlots(e: Env, s: State, slots: map<nat, Slot>, finish: string) {
    && (s.reasoning.started ==> 0 in slots && slots[0] == ReasoningSlot(e, s.reasoning))
    && (s.message.started ==> s.message.index in slots && slots[s.message.index] == MessageSlot(e, s.message, finish))
    && (forall i :: i in slots ==> i < s.nextIndex)
  }

  ghost predicate ToolSlots(e: Env, s: State, slots: map<nat, Slot>, frags: seq<ToolDelta>) {
    forall idx :: idx in s.tools ==>
      var t := s.tools[idx];
      && (t.added <==> t.outputIndex in slots)
      && (t.added ==> ToolSlot(slots[t.outputIndex], t, CallOf(e, frags, idx)))
  }

  /** The state accounts for its indices, stored its closed items, and a client that read every event agrees with it. */
  ghost predicate Synced(e: Env, s: State, finish: string, frags: seq<ToolDelta>, c: Client) {
    && e.limit.None? && Linked(s.out, c) && c.seen >= 2 && c.ending == Running
    && Accounted(s) && s.outputs == Heads(e, s, finish)
    && HeadSlots(e, s, c.slots, finish) && ToolSlots(e, s, c.slots, frags)
  }

  ghost predicate Inv(e: Env, s: State, sigs: seq<Signal>, c: Client) {
    Synced(e, s, FinishAtTools(sigs), Fragments(sigs), c) && Recorded(e, s, sigs)
  }

  // ---------- closing the reasoning and message items ----------

  /** Storing at the next free position appends; no hole is made. */
  lemma StoreNext(outputs: seq<Option<Item>>, item: Item)
    ensures StoreOutput(outputs, |outputs|, item) == outputs + [Some(item)]
  {
    assert Padded(outputs, |outputs| + 1) == outputs + [None];
  }

  predicate AboutSlot(b: Body) {
    !(b.CreatedEvent? || b.InProgressEvent? || b.FailedEvent? || b.CompletedEvent? || b.IncompleteEvent?
      || b.ItemAdded?)
  }

  lemma SlotStep(c: Client, b: Body, slot: Slot)
    requires c.Following? && c.ending == Running && c.seen >= 2
    requires AboutSlot(b) && b.index in c.slots && c.slots[b.index].Open? && Advance(c.slots[b.index], b) == Some(slot)
    ensures Take(c, b) == Following(c.seen + 1, c.slots[b.index := slot], Running)
  {
  }

  lemma AddStep(c: Client, index: nat, item: Item)
    requires c.Following? && c.ending == Running && c.seen >= 2 && MayAdd(c.slots, index, item)
    ensures Take(c, ItemAdded(index, item))
        == Following(c.seen + 1, c.slots[index := Open(item, Fresh, "", true)], Running)
  {
  }

  lemma ClientClosesReasoning(e: Env, p: Section, c: Client)
    requires c.Following? && c.ending == Running && c.seen >= 2
    requires p.open && p.index in c.slots && c.slots[p.index] == ReasoningSlot(e, p)
    ensures TakeAll(c, ReasoningClosing(e, p))
            == Following(c.seen + 3, c.slots[p.index := Closed(ReasoningDone(e, p.text), true)], Running)
  {
    hide Receive, Take;
    var b := ReasoningClosing(e, p);
    var slot := c.slots[p.index];
    assert b == [b[0], b[1], b[2]];
    TakeThree(c, b[0], b[1], b[2]);
    SlotStep(c, b[0], slot.(stage := TextClosed));
    SlotStep(Take(c, b[0]), b[1], slot.(stage := PartClosed));
    SlotStep(Take(Take(c, b[0]), b[1]), b[2], Closed(ReasoningDone(e, p.text), true));
  }

  lemma FinishReasoningSynced(e: Env, s: State, finish: string, frags: seq<ToolDelta>, c: Client) returns (c1: Client)
    requires Synced(e, s, finish, frags, c)
    ensures var s1 := FinishReasoning(e, s);
            && Synced(e, s1, finish, frags, c1) && !s1.reasoning.open
            && s1 == s.(out := s1.out, outputs := s1.outputs, reasoning := s.reasoning.(open := false))
  {
    c1 := c;
    if s.reasoning.open {
      var b := ReasoningClosing(e, s.reasoning);
      ClientClosesReasoning(e, s.reasoning, c);
      StoreNext(s.outputs, ReasoningDone(e, s.reasoning.text));
      c1 := TakeAll(c, b);
      EmitAllLinked(e, s.out, c, b);
    }
  }

  lemma ClientClosesMessage(e: Env, finish: string, p: Section, c: Client)
    requires c.Following? && c.ending == Running && c.seen >= 2
    requires p.open && p.index in c.slots && c.slots[p.index] == MessageSlot(e, p, finish)
    ensures TakeAll(c, MessageClosing(e, finish, p))
            == Following(c.seen + 3, c.slots[p.index := Closed(MessageDone(e, finish, p.text), true)], Running)
  {
    hide Receive, Take;
    var b := MessageClosing(e, finish, p);
    var slot := c.slots[p.index];
    assert b == [b[0], b[1], b[2]];
    TakeThree(c, b[0], b[1], b[2]);
    SlotStep(c, b[0], slot.(stage := TextClosed));
    SlotStep(Take(c, b[0]), b[1], slot.(stage := PartClosed));
    SlotStep(Take(Take(c, b[0]), b[1]), b[2], Closed(MessageDone(e, finish, p.text), true));
  }

  lemma FinishTextSynced(e: Env, s: State, finish: string, frags: seq<ToolDelta>, c: Client) returns (c1: Client)
    requires Synced(e, s, finish, frags, c) && !s.reasoning.open && (s.message.open ==> finish == s.finishReason)
    ensures var s1 := FinishText(e, s);
            && Synced(e, s1, finish, frags, c1) && !s1.message.open
            && s1 == s.(out := s1.out, outputs := s1.outputs, message := s.message.(open := false))
  {
    c1 := c;
    if s.message.open {
      var b := MessageClosing(e, s.finishReason, s.message);
      ClientClosesMessage(e, finish, s.message, c);
      StoreNext(s.outputs, MessageDone(e, finish, s.message.text));
      c1 := TakeAll(c, b);
      EmitAllLinked(e, s.out, c, b);
    }
  }

  // ---------- opening and extending them ----------

  lemma ClientReadsReasoning(e: Env, p: Section, next: nat, delta: string, c: Client)
    requires c.Following? && c.ending == Running && c.seen >= 2
    requires p.open ==> p.index in c.slots && c.slots[p.index] == ReasoningSlot(e, p)
    requires !p.open ==> next !in c.slots && p.text == "" && forall i :: i in c.slots ==> c.slots[i].Closed?
    ensures var p1 := OpenSection(p, next);
            var c1 := TakeAll(c, ReasoningOpening(e, p, next));
            && c1.Following? && c1.seen >= 2
            && Take(c1, ReasoningDelta(p1.index, RsID(e), delta))
               == Following(c1.seen + 1, c.slots[p1.index := ReasoningSlot(e, p1.(text := p.text + delta))], Running)
  {
    hide Receive, Take;
    var b := ReasoningOpening(e, p, next);
    if !p.open {
      var item := ReasoningItem(RsID(e), InProgress, []);
      assert b == [b[0], b[1]];
      TakeTwo(c, b[0], b[1]);
      AddStep(c, next, item);
      SlotStep(Take(c, b[0]), b[1], Open(item, Streaming, "", true));
    }
    assert "" + delta == delta;
    var p1 := OpenSection(p, next);
    SlotStep(TakeAll(c, b), ReasoningDelta(p1.index, RsID(e), delta), ReasoningSlot(e, p1.(text := p.text + delta)));
  }

  lemma ClientReadsText(e: Env, p: Section, next: nat, delta: string, c: Client, finish: string)
    requires c.Following? && c.ending == Running && c.seen >= 2
    requires p.open ==> p.index in c.slots && c.slots[p.index] == MessageSlot(e, p, finish)
    requires !p.open ==> next !in c.slots && p.text == "" && forall i :: i in c.slots ==> c.slots[i].Closed?
    ensures var p1 := OpenSection(p, next);
            var c1 := TakeAll(c, MessageOpening(e, p, next));
            && c1.Following? && c1.seen >= 2
            && Take(c1, TextDelta(p1.index, MsgID(e), delta))
               == Following(c1.seen + 1, c.slots[p1.index := MessageSlot(e, p1.(text := p.text + delta), finish)],
                            Running)
  {
    hide Receive, Take;
    var b := MessageOpening(e, p, next);
    if !p.open {
      var item := MessageItem(MsgID(e), InProgress, []);
      assert b == [b[0], b[1]];
      TakeTwo(c, b[0], b[1]);
      AddStep(c, next, item);
      SlotStep(Take(c, b[0]), b[1], Open(item, Streaming, "", true));
    }
    assert "" + delta == delta;
    var p1 := OpenSection(p, next);
    SlotStep(TakeAll(c, b), TextDelta(p1.index, MsgID(e), delta), MessageSlot(e, p1.(text := p.text + delta), finish));
  }

  lemma HandleReasoningSynced(e: Env, s: State, finish: string, delta: string, c: Client) returns (c1: Client)
    requires Synced(e, s, finish, [], c) && !s.message.started && s.toolOrder == []
    requires s.reasoning.open <==> s.reasoning.started
    requires !s.reasoning.started ==> s.reasoning.text == ""
    ensures var s1 := HandleReasoning(e, s, delta);
            && Synced(e, s1, finish, [], c1)
            && s1 == s.(out := s1.out, nextIndex := s1.nextIndex, reasoning := s1.reasoning)
            && s1.reasoning == Section(true, true, 0, s.reasoning.text + delta)
  {
    hide Receive, Take, TakeAll, EmitAll, Emit, Replay;
    var b := ReasoningOpening(e, s.reasoning, s.nextIndex);
    ClientReadsReasoning(e, s.reasoning, s.nextIndex, delta, c);
    EmitAllLinked(e, s.out, c, b);
    var p := OpenSection(s.reasoning, s.nextIndex);
    var last := ReasoningDelta(p.index, RsID(e), delta);
    EmitLinked(e, EmitAll(e, s.out, b), TakeAll(c, b), last);
    c1 := Take(TakeAll(c, b), last);
    assert s.tools == map[];
  }

  lemma AppendTextSynced(e: Env, s: State, finish: string, delta: string, c: Client) returns (c1: Client)
    requires Synced(e, s, finish, [], c) && !s.reasoning.open && s.toolOrder == []
    requires s.message.open <==> s.message.started
    requires !s.message.started ==> s.message.text == ""
    ensures var s1 := AppendText(e, s, delta);
            && Synced(e, s1, finish, [], c1)
            && s1 == s.(out := s1.out, nextIndex := s1.nextIndex, message := s1.message)
            && s1.message.open && s1.message.started && s1.message.text == s.message.text + delta
  {
    hide Receive, Take, TakeAll, EmitAll, Emit, Replay;
    var b := MessageOpening(e, s.message, s.nextIndex);
    ClientReadsText(e, s.message, s.nextIndex, delta, c, finish);
    EmitAllLinked(e, s.out, c, b);
    var p := OpenSection(s.message, s.nextIndex);
    var last := TextDelta(p.index, MsgID(e), delta);
    EmitLinked(e, EmitAll(e, s.out, b), TakeAll(c, b), last);
    c1 := Take(TakeAll(c, b), last);
    assert s.tools == map[];
  }

  // ---------- tool fragments ----------

  /** What startTool or a later fragment sends for a tool record. */
  function ToolEvents(e: Env, t: Tool, idx: int, args: string): seq<Body> {
    if CanStart(t) then Announcement(e, t, idx) else Continuation(e, t, args)
  }

  /** The client's slots differ at most at index `i`. */
  ghost predicate OnlySlot(before: map<nat, Slot>, after: map<nat, Slot>, i: nat) {
    forall j: nat :: j != i ==> (j in before <==> j in after) && (j in before ==> after[j] == before[j])
  }

  ghost predicate TextClosedIn(slots: map<nat, Slot>) {
    forall i :: i in slots && slots[i].Open? ==> slots[i].item.IsTool()
  }

  lemma NewToolItem(e: Env, id: ItemID, callID: string, name: string)
    ensures var item := ToolCallItem(e, id, InProgress, callID, name, "");
            && item.IsTool() && Unfilled(item) && item.id == id
            && (item.FunctionCall? <==> KindOf(e, name) == Function)
            && Identity(item) == ToolIdentity(e, callID, name)
  {
    assert TrimSpace("") == "";
  }

  lemma ClientSeesItem(c: Client, i: nat, item: Item, args: string)
    requires c.Following? && c.ending == Running && c.seen >= 2 && TextClosedIn(c.slots) && i !in c.slots
    requires item.IsTool() && Unfilled(item) && (args != "" ==> item.FunctionCall?)
    ensures var b := [ItemAdded(i, item)] + if args != "" then [ArgsDelta(i, item.id, args)] else [];
            TakeAll(c, b) == Following(c.seen + |b|, c.slots[i := Open(item, Fresh, args, true)], Running)
  {
    hide Receive, Take, Unfilled;
    var a := ItemAdded(i, item);
    AddStep(c, i, item);
    if args == "" {
      TakeTwo(c, a, a);
      assert [a] + [] == [a];
    } else {
      var d := ArgsDelta(i, item.id, args);
      assert [a] + [d] == [a, d] && "" + args == args;
      TakeTwo(c, a, d);
      SlotStep(Following(c.seen + 1, c.slots[i := Open(item, Fresh, "", true)], Running), d,
               Open(item, Fresh, args, true));
    }
  }

  lemma ClientSeesAnnouncement(e: Env, t: Tool, idx: int, c: Client)
    requires c.Following? && c.ending == Running && c.seen >= 2 && TextClosedIn(c.slots)
    requires CanStart(t) && t.outputIndex !in c.slots
    ensures var id := ToolItemID(e, KindOf(e, t.name), idx);
            var item := ToolCallItem(e, id, InProgress, t.callID, t.name, "");
            var acc := if KindOf(e, t.name) == Function then t.args else "";
            TakeAll(c, Announcement(e, t, idx))
            == Following(c.seen + |Announcement(e, t, idx)|, c.slots[t.outputIndex := Open(item, Fresh, acc, true)],
                         Running)
  {
    hide TakeAll, ToolCallItem, KindOf, TextClosedIn;
    var id := ToolItemID(e, KindOf(e, t.name), idx);
    NewToolItem(e, id, t.callID, t.name);
    ClientSeesItem(c, t.outputIndex, ToolCallItem(e, id, InProgress, t.callID, t.name, ""),
                   if KindOf(e, t.name) == Function then t.args else "");
  }

  /** One fragment of a call whose record was `t0`: the client's slot for it stays in step. */
  lemma ClientHearsFragment(e: Env, t0: Tool, call0: Call, d: ToolDelta, idx: int, c: Client)
    requires c.Following? && c.ending == Running && c.seen >= 2 && TextClosedIn(c.slots)
    requires Matches(t0, call0) && (t0.added <==> t0.outputIndex in c.slots)
    requires t0.added ==> ToolSlot(c.slots[t0.outputIndex], t0, call0)
    ensures var t := Extend(t0, d);
            var t1 := Announced(e, t, idx);
            var call1 := Extended(e, call0, d);
            var c1 := TakeAll(c, ToolEvents(e, t, idx, d.args));
            && c1.Following? && c1.ending == Running && c1.seen >= 2
            && Matches(t1, call1) && (t1.added <==> t1.outputIndex in c1.slots)
            && (t1.added ==> ToolSlot(c1.slots[t1.outputIndex], t1, call1))
            && OnlySlot(c.slots, c1.slots, t0.outputIndex)
  {
    hide Receive, Take;
    var t := Extend(t0, d);
    if CanStart(t) {
      ClientSeesAnnouncement(e, t, idx, c);
    } else if t.added {
      var slot := c.slots[t.outputIndex];
      var b := Continuation(e, t, d.args);
      if b == [] {
        assert t0.args + "" == t0.args;
      } else {
        TakeTwo(c, b[0], b[0]);
        SlotStep(c, b[0], slot.(acc := slot.acc + d.args, faithful := slot.faithful && slot.item.FunctionCall?));
      }
    }
  }

  /** Where the record of a fragment's call was before the fragment; a new call starts empty at the next index. */
  function Previous(s: State, idx: int): Tool {
    if idx in s.tools then s.tools[idx] else Tool(s.nextIndex, NoID, "", "", false, "")
  }

  lemma RegisterExtends(s: State, d: ToolDelta)
    ensures RegisterTool(s, d).tools == s.tools[IndexOf(d) := Extend(Previous(s, IndexOf(d)), d)]
  {
    assert "" + d.args == d.args;
  }

  ghost predicate CallsMatch(e: Env, s: State, frags: seq<ToolDelta>) {
    && s.toolOrder == Order(frags)
    && forall idx :: idx in s.tools ==> Matches(s.tools[idx], CallOf(e, frags, idx))
  }

  /** Recording a tool call under a new index claims the next output index; under a known one it keeps its own. */
  lemma RecordKeepsAccount(s: State, s1: State, idx: int, t: Tool)
    requires Accounted(s) && !s.reasoning.open && !s.message.open
    requires s1.tools == s.tools[idx := t] && t.outputIndex == Previous(s, idx).outputIndex
    requires s1.reasoning == s.reasoning && s1.message == s.message
    requires if idx in s.tools then s1.toolOrder == s.toolOrder && s1.nextIndex == s.nextIndex
             else s1.toolOrder == s.toolOrder + [idx] && s1.nextIndex == s.nextIndex + 1
    ensures Accounted(s1)
  {
    assert s1.tools.Keys == s.tools.Keys + {idx};
    forall i ensures i in s1.tools <==> i in s1.toolOrder {
      assert i in s.tools <==> i in s.toolOrder;
    }
  }

  lemma AppendToolShape(e: Env, s: State, d: ToolDelta)
    ensures var idx := IndexOf(d);
            var t := Extend(Previous(s, idx), d);
            var s1 := AppendTool(e, s, d);
            && s1.tools == s.tools[idx := Announced(e, t, idx)]
            && s1.out == EmitAll(e, s.out, ToolEvents(e, t, idx, d.args))
            && s1.toolOrder == (if idx in s.tools then s.toolOrder else s.toolOrder + [idx])
            && s1 == s.(out := s1.out, tools := s1.tools, toolOrder := s1.toolOrder,
                        nextIndex := if idx in s.tools then s.nextIndex else s.nextIndex + 1)
  {
    RegisterExtends(s, d);
  }

  /** Every open slot of the client belongs to a tool call once the text items are closed. */
  lemma OnlyToolsOpen(e: Env, s: State, finish: string, frags: seq<ToolDelta>, slots: map<nat, Slot>)
    requires Accounted(s) && HeadSlots(e, s, slots, finish) && ToolSlots(e, s, slots, frags)
    requires !s.reasoning.open && !s.message.open
    ensures TextClosedIn(slots)
  {
    forall i | i in slots && slots[i].Open? ensures slots[i].item.IsTool() {
      if i >= Base(s) {
        var idx := s.toolOrder[i - Base(s)];
        assert s.tools[idx].outputIndex == i;
      }
    }
  }

  /** A fragment leaves every other call, and the client's slot for it, alone. */
  lemma OtherToolsKept(e: Env, s: State, s1: State, d: ToolDelta, t: Tool, frags: seq<ToolDelta>, slots: map<nat, Slot>,
                       slots1: map<nat, Slot>)
    requires Accounted(s) && ToolSlots(e, s, slots, frags) && CallsMatch(e, s, frags)
    requires s1.tools == s.tools[IndexOf(d) := t] && t.outputIndex == Previous(s, IndexOf(d)).outputIndex
    requires OnlySlot(slots, slots1, t.outputIndex)
    requires var call1 := CallOf(e, frags + [d], IndexOf(d));
             && Matches(t, call1) && (t.added <==> t.outputIndex in slots1)
             && (t.added ==> ToolSlot(slots1[t.outputIndex], t, call1))
    ensures ToolSlots(e, s1, slots1, frags + [d])
    ensures forall i :: i in s1.tools ==> Matches(s1.tools[i], CallOf(e, frags + [d], i))
  {
    assert (frags + [d])[..|frags|] == frags;
    forall i | i in s1.tools && i != IndexOf(d)
      ensures s1.tools[i] == s.tools[i] && s.tools[i].outputIndex != t.outputIndex
      ensures CallOf(e, frags + [d], i) == CallOf(e, frags, i)
    {
      assert i in s.toolOrder;
    }
  }

  lemma IndexWithin(s: State, idx: int)
    requires Accounted(s)
    ensures Base(s) <= Previous(s, idx).outputIndex <= s.nextIndex
    ensures idx in s.tools ==> Previous(s, idx).outputIndex < s.nextIndex
  {
    if idx in s.tools {
      var k :| 0 <= k < |s.toolOrder| && s.toolOrder[k] == idx;
    }
  }

  lemma HeadSlotsKept(e: Env, s: State, s1: State, finish: string, slots: map<nat, Slot>, slots1: map<nat, Slot>,
                      i: nat)
    requires Accounted(s) && HeadSlots(e, s, slots, finish) && OnlySlot(slots, slots1, i) && Base(s) <= i < s1.nextIndex
    requires s1.reasoning == s.reasoning && s1.message == s.message && s.nextIndex <= s1.nextIndex
    ensures HeadSlots(e, s1, slots1, finish)
  {
  }

  lemma AppendToolSynced(e: Env, s: State, finish: string, frags: seq<ToolDelta>, d: ToolDelta,
                         c: Client) returns (c1: Client)
    requires Synced(e, s, finish, frags, c) && CallsMatch(e, s, frags)
    requires !s.reasoning.open && !s.message.open
    ensures var s1 := AppendTool(e, s, d);
            && Synced(e, s1, finish, frags + [d], c1) && CallsMatch(e, s1, frags + [d])
            && s1 == s.(out := s1.out, tools := s1.tools, toolOrder := s1.toolOrder, nextIndex := s1.nextIndex)
  {
    var idx := IndexOf(d);
    var t0 := Previous(s, idx);
    if idx !in s.tools {
      NoFragmentsNoCall(e, frags, idx);
    }
    OnlyToolsOpen(e, s, finish, frags, c.slots);
    var b := ToolEvents(e, Extend(t0, d), idx, d.args);
    ClientHearsFragment(e, t0, CallOf(e, frags, idx), d, idx, c);
    EmitAllLinked(e, s.out, c, b);
    c1 := TakeAll(c, b);
    AppendToolShape(e, s, d);
    assert (frags + [d])[..|frags|] == frags;
    AppendToolParts(e, s, AppendTool(e, s, d), Announced(e, Extend(t0, d), idx), finish, frags, d, c, c1);
  }

  /** The pieces of AppendToolSynced put together, for a state and a client known only by what changed. */
  lemma AppendToolParts(e: Env, s: State, s1: State, t1: Tool, finish: string, frags: seq<ToolDelta>, d: ToolDelta,
                        c: Client, c1: Client)
    requires Synced(e, s, finish, frags, c) && CallsMatch(e, s, frags)
    requires !s.reasoning.open && !s.message.open
    requires var idx := IndexOf(d);
             && s1.tools == s.tools[idx := t1] && t1.outputIndex == Previous(s, idx).outputIndex
             && s1.toolOrder == (if idx in s.tools then s.toolOrder else s.toolOrder + [idx])
             && s1 == s.(out := s1.out, tools := s1.tools, toolOrder := s1.toolOrder,
                         nextIndex := if idx in s.tools then s.nextIndex else s.nextIndex + 1)
    requires Linked(s1.out, c1) && c1.seen >= 2 && c1.ending == Running
    requires OnlySlot(c.slots, c1.slots, t1.outputIndex)
    requires var call1 := CallOf(e, frags + [d], IndexOf(d));
             && Matches(t1, call1) && (t1.added <==> t1.outputIndex in c1.slots)
             && (t1.added ==> ToolSlot(c1.slots[t1.outputIndex], t1, call1))
    ensures Synced(e, s1, finish, frags + [d], c1) && CallsMatch(e, s1, frags + [d])
  {
    hide ToolSlot, CallOf, Matches, Replay, HeadSlots, ToolSlots;
    var idx := IndexOf(d);
    RecordKeepsAccount(s, s1, idx, t1);
    OtherToolsKept(e, s, s1, d, t1, frags, c.slots, c1.slots);
    IndexWithin(s, idx);
    HeadSlotsKept(e, s, s1, finish, c.slots, c1.slots, t1.outputIndex);
    assert s1.toolOrder == Order(frags + [d]) by {
      assert (frags + [d])[..|frags|] == frags;
    }
  }
}
