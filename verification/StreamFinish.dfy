/** The closing phase of a fault-free stream: every tool call is closed in order and the final response is rebuilt. */
module StreamFinish {
  import opened Common
  import opened Protocol
  import opened Tools
  import opened StreamSpec
  import opened StreamClient
  import opened StreamHistory
  import opened StreamInvariants

  /** Where the call `c` of index `idx` ends up: its record once closed. */
  ghost predicate ClosedRecord(e: Env, t: Tool, c: Call, idx: int) {
    t.callID == FinalID(e, c, idx) && t.name == c.name && t.args == c.args && t.added
  }

  /** The first `n` tool calls are closed and stored; the rest are as the fragments left them. */
  ghost predicate Finishing(e: Env, s: State, finish: string, frags: seq<ToolDelta>, c: Client, n: nat) {
    && e.limit.None? && Linked(s.out, c) && c.seen >= 2 && c.ending == Running
    && Accounted(s) && !s.reasoning.open && !s.message.open && s.toolOrder == Order(frags) && n <= |s.toolOrder|
    && HeadSlots(e, s, c.slots, finish) && |s.outputs| == Base(s) + n && s.outputs[..Base(s)] == Heads(e, s, finish)
    && (forall k :: 0 <= k < n ==> ClosedTool(e, s, frags, c, k))
    && (forall k :: n <= k < |s.toolOrder| ==> PendingTool(e, s, frags, c, k))
  }

  ghost predicate ClosedTool(e: Env, s: State, frags: seq<ToolDelta>, c: Client, k: nat) {
    && c.Following? && k < |s.toolOrder| && s.toolOrder[k] in s.tools && Base(s) + k < |s.outputs|
    && var idx := s.toolOrder[k];
       var t := s.tools[idx];
       && ClosedRecord(e, t, CallOf(e, frags, idx), idx)
       && t.outputIndex in c.slots && c.slots[t.outputIndex] == Closed(ToolDone(e, t), Stable(e, frags, idx))
       && s.outputs[Base(s) + k] == Some(ToolDone(e, t))
  }

  ghost predicate PendingTool(e: Env, s: State, frags: seq<ToolDelta>, c: Client, k: nat) {
    && c.Following? && k < |s.toolOrder| && s.toolOrder[k] in s.tools
    && var idx := s.toolOrder[k];
       var t := s.tools[idx];
       && Matches(t, CallOf(e, frags, idx))
       && (t.added <==> t.outputIndex in c.slots)
       && (t.added ==> ToolSlot(c.slots[t.outputIndex], t, CallOf(e, frags, idx)))
  }

  /** An announced call has a name and an id. */
  lemma {:induction false} AnnouncedIsNamed(e: Env, frags: seq<ToolDelta>, idx: int)
    ensures var c := CallOf(e, frags, idx);
            (c.announced.Some? <==> c.id != "" && c.name != "") && (c.announced.None? ==> c.steady)
  {
    if frags != [] {
      AnnouncedIsNamed(e, frags[..|frags| - 1], idx);
    }
  }

  lemma ToolDoneFacts(e: Env, t: Tool)
    ensures var item := ToolDone(e, t);
            && item.IsTool() && item.id == t.itemID && item.status == Completed
            && (item.FunctionCall? <==> KindOf(e, t.name) == Function)
            && (item.CustomToolCall? <==> KindOf(e, t.name) == Custom)
            && Identity(item) == ToolIdentity(e, t.callID, t.name)
            && (item.FunctionCall? ==> item.arguments == t.args)
  {
  }

  predicate Arrived(item: Item, id: ItemID) { item.IsTool() && item.id == id && item.status == Completed }

  /** Whether a client that holds `slot` finds the closed item to be what it was told. */
  predicate FoundFaithful(slot: Slot, item: Item)
    requires slot.Open?
  {
    slot.faithful && Identity(slot.item) == Identity(item)
        && slot.acc == (if item.FunctionCall? then item.arguments else "")
  }

  /** A run of events about one item, on its slot alone. */
  function Step(slot: Option<Slot>, body: Body): Option<Slot> {
    if slot.Some? && slot.value.Open? then Advance(slot.value, body) else None
  }

  function AdvanceAll(slot: Slot, bodies: seq<Body>): Option<Slot> {
    if bodies == [] then Some(slot) else Step(AdvanceAll(slot, bodies[..|bodies| - 1]), bodies[|bodies| - 1])
  }

  lemma {:induction false} SlotRun(c: Client, i: nat, bodies: seq<Body>, slot: Slot)
    requires c.Following? && c.ending == Running && c.seen >= 2 && i in c.slots && c.slots[i].Open?
    requires forall k :: 0 <= k < |bodies| ==> AboutSlot(bodies[k]) && bodies[k].index == i
    requires AdvanceAll(c.slots[i], bodies) == Some(slot)
    ensures TakeAll(c, bodies) == Following(c.seen + |bodies|, c.slots[i := slot], Running)
  {
    if bodies == [] {
      assert c.slots[i := slot] == c.slots;
    } else {
      var before := bodies[..|bodies| - 1];
      var mid := AdvanceAll(c.slots[i], before).value;
      SlotRun(c, i, before, mid);
      SlotStep(TakeAll(c, before), bodies[|bodies| - 1], slot);
      assert c.slots[i := mid][i := slot] == c.slots[i := slot];
    }
  }

  lemma StepTwo(slot: Slot, a: Body, b: Body)
    ensures AdvanceAll(slot, [a]) == Step(Some(slot), a)
    ensures AdvanceAll(slot, [a, b]) == Step(Step(Some(slot), a), b)
  {
    hide Advance;
    assert [a][..0] == [] && [a, b][..1] == [a];
  }

  lemma StepThree(slot: Slot, a: Body, b: Body, d: Body)
    ensures AdvanceAll(slot, [a, b, d]) == Step(Step(Step(Some(slot), a), b), d)
  {
    hide Advance;
    StepTwo(slot, a, b);
    assert [a, b, d][..2] == [a, b];
  }

  predicate ToolReady(slot: Slot, id: ItemID) {
    slot.Open? && slot.stage == Fresh && slot.item.IsTool() && slot.item.id == id
  }

  lemma ClosesFunction(slot: Slot, i: nat, item: Item)
    requires ToolReady(slot, item.id) && Arrived(item, item.id) && item.FunctionCall?
    ensures AdvanceAll(slot, [ArgsDone(i, item.id, item.arguments), ItemDone(i, item)])
        == Some(Closed(item, FoundFaithful(slot, item)))
  {
    StepTwo(slot, ArgsDone(i, item.id, item.arguments), ItemDone(i, item));
  }

  lemma ClosesSearch(slot: Slot, i: nat, item: Item)
    requires ToolReady(slot, item.id) && Arrived(item, item.id) && item.ToolSearchCall?
    ensures AdvanceAll(slot, [ItemDone(i, item)]) == Some(Closed(item, FoundFaithful(slot, item)))
  {
    StepTwo(slot, ItemDone(i, item), ItemDone(i, item));
  }

  lemma ClosesEmptyCustom(slot: Slot, i: nat, item: Item)
    requires ToolReady(slot, item.id) && Arrived(item, item.id) && item.CustomToolCall? && item.input == ""
    ensures AdvanceAll(slot, [CustomDone(i, item.id, item.input), ItemDone(i, item)])
        == Some(Closed(item, FoundFaithful(slot, item)))
  {
    StepTwo(slot, CustomDone(i, item.id, item.input), ItemDone(i, item));
  }

  lemma ClosesCustom(slot: Slot, i: nat, item: Item)
    requires ToolReady(slot, item.id) && Arrived(item, item.id) && item.CustomToolCall? && item.input != ""
    ensures AdvanceAll(slot, [CustomDelta(i, item.id, item.input), CustomDone(i, item.id, item.input),
                              ItemDone(i, item)])
            == Some(Closed(item, FoundFaithful(slot, item)))
  {
    StepThree(slot, CustomDelta(i, item.id, item.input), CustomDone(i, item.id, item.input), ItemDone(i, item));
    assert slot.acc + item.input == item.input <==> slot.acc == "" by {
      assert |slot.acc + item.input| == |slot.acc| + |item.input|;
      if slot.acc == "" { assert slot.acc + item.input == item.input; }
    }
  }

  lemma SlotClosesTool(e: Env, t: Tool, slot: Slot)
    requires ToolReady(slot, t.itemID)
    ensures AdvanceAll(slot, ToolClosing(e, t)) == Some(Closed(ToolDone(e, t), FoundFaithful(slot, ToolDone(e, t))))
  {
    var i, item := t.outputIndex, ToolDone(e, t);
    if KindOf(e, t.name) == Function {
      assert ToolClosing(e, t) == [ArgsDone(i, item.id, item.arguments), ItemDone(i, item)];
      ClosesFunction(slot, i, item);
    } else if KindOf(e, t.name) == Custom {
      CustomClosing(e, t);
      if item.input == "" {
        ClosesEmptyCustom(slot, i, item);
      } else {
        ClosesCustom(slot, i, item);
      }
    } else {
      assert ToolClosing(e, t) == [ItemDone(i, item)];
      ClosesSearch(slot, i, item);
    }
  }

  lemma CustomClosing(e: Env, t: Tool)
    requires KindOf(e, t.name) == Custom
    ensures var i, item := t.outputIndex, ToolDone(e, t);
            && item.CustomToolCall?
            && ToolClosing(e, t)
               == (if item.input == "" then [CustomDone(i, item.id, item.input), ItemDone(i, item)]
                   else [CustomDelta(i, item.id, item.input), CustomDone(i, item.id, item.input), ItemDone(i, item)])
  {
  }

  lemma ClosingIsAboutSlot(e: Env, t: Tool)
    ensures forall k :: 0 <= k < |ToolClosing(e, t)| ==>
              AboutSlot(ToolClosing(e, t)[k]) && ToolClosing(e, t)[k].index == t.outputIndex
  {
  }

  /** Reading the closing events of a call whose slot is open: the slot closes with the item, faithful or not. */
  lemma ClientClosesTool(e: Env, t: Tool, c: Client)
    requires c.Following? && c.ending == Running && c.seen >= 2
    requires t.outputIndex in c.slots && ToolReady(c.slots[t.outputIndex], t.itemID)
    ensures TakeAll(c, ToolClosing(e, t))
            == Following(c.seen + |ToolClosing(e, t)|,
                         c.slots[t.outputIndex := Closed(ToolDone(e, t),
                             FoundFaithful(c.slots[t.outputIndex], ToolDone(e, t)))], Running)
  {
    hide ToolClosing, TakeAll, AdvanceAll, FoundFaithful, ToolDone, KindOf, AboutSlot;
    var slot := c.slots[t.outputIndex];
    SlotClosesTool(e, t, slot);
    var b := ToolClosing(e, t);
    ClosingIsAboutSlot(e, t);
    SlotRun(c, t.outputIndex, b, Closed(ToolDone(e, t), FoundFaithful(slot, ToolDone(e, t))));
  }

  /** The events that finish one call: its announcement if it is still due, then its closing. */
  function FinishEvents(e: Env, t: Tool, idx: int): seq<Body> {
    var named := NameCall(e, t, idx);
    Announcement(e, named, idx) + ToolClosing(e, Announced(e, named, idx))
  }

  lemma {:induction false} TakeAllConcat(c: Client, a: seq<Body>, b: seq<Body>)
    ensures TakeAll(c, a + b) == TakeAll(TakeAll(c, a), b)
  {
    if b == [] {
      assert a + b == a;
    } else {
      assert (a + b)[..|a + b| - 1] == a + b[..|b| - 1];
      TakeAllConcat(c, a, b[..|b| - 1]);
    }
  }

  /** A slot that is in step with its call is found faithful at the end exactly when the call was stable. */
  lemma FaithfulIsStable(e: Env, slot: Slot, t: Tool, frags: seq<ToolDelta>, idx: int)
    requires var c := CallOf(e, frags, idx);
             && t.added && Matches(t, c) && ToolSlot(slot, t, c)
    ensures FoundFaithful(slot, ToolDone(e, t)) <==> Stable(e, frags, idx)
  {
    ToolDoneFacts(e, t);
    var item := ToolDone(e, t);
    if Identity(slot.item) == Identity(item) {
      assert slot.item.FunctionCall? <==> item.FunctionCall?;
    }
  }

  /** A call announced only at the end is announced as what it is. */
  lemma LateCallStable(e: Env, t: Tool, idx: int, c: Client) returns (c1: Client)
    requires c.Following? && c.ending == Running && c.seen >= 2 && TextClosedIn(c.slots)
    requires CanStart(t) && t.outputIndex !in c.slots
    ensures c1 == TakeAll(c, Announcement(e, t, idx)) && c1.Following? && c1.ending == Running && c1.seen >= 2
    ensures var t1 := Announced(e, t, idx);
            && t.outputIndex in c1.slots && c1.slots == c.slots[t.outputIndex := c1.slots[t.outputIndex]]
            && ToolReady(c1.slots[t.outputIndex], t1.itemID)
            && FoundFaithful(c1.slots[t.outputIndex], ToolDone(e, t1))
  {
    ClientSeesAnnouncement(e, t, idx, c);
    c1 := TakeAll(c, Announcement(e, t, idx));
    var t1 := Announced(e, t, idx);
    NewToolItem(e, t1.itemID, t1.callID, t1.name);
    ToolDoneFacts(e, t1);
  }

  lemma SyntheticNonEmpty(e: Env, idx: int)
    ensures SyntheticCallID(e, idx) != ""
  {
    assert |SyntheticCallID(e, idx)| >= |"call_"|;
  }

  /** What the client makes of the events that finish the call of index `idx`. */
  lemma ClientFinishesTool(e: Env, t: Tool, idx: int, frags: seq<ToolDelta>, c: Client) returns (c1: Client)
    requires c.Following? && c.ending == Running && c.seen >= 2 && TextClosedIn(c.slots)
    requires var call := CallOf(e, frags, idx);
             && t.name != "" && Matches(t, call) && (t.added <==> t.outputIndex in c.slots)
             && (t.added ==> ToolSlot(c.slots[t.outputIndex], t, call))
    ensures var t1 := Announced(e, NameCall(e, t, idx), idx);
            && c1 == TakeAll(c, FinishEvents(e, t, idx))
            && c1.Following? && c1.ending == Running && c1.seen >= 2
            && c1.slots == c.slots[t.outputIndex := Closed(ToolDone(e, t1), Stable(e, frags, idx))]
            && ClosedRecord(e, t1, CallOf(e, frags, idx), idx) && t1.outputIndex == t.outputIndex
  {
    hide TakeAll, ToolClosing, ToolDone;
    AnnouncedIsNamed(e, frags, idx);
    SyntheticNonEmpty(e, idx);
    var named := NameCall(e, t, idx);
    var t1 := Announced(e, named, idx);
    TakeAllConcat(c, Announcement(e, named, idx), ToolClosing(e, t1));
    TakeNone(c);
    if t.added {
      FaithfulIsStable(e, c.slots[t.outputIndex], t, frags, idx);
      ClientClosesTool(e, t1, c);
      c1 := TakeAll(c, ToolClosing(e, t1));
    } else {
      var c0 := LateCallStable(e, named, idx, c);
      ClientClosesTool(e, t1, c0);
      c1 := TakeAll(c0, ToolClosing(e, t1));
    }
  }

  lemma {:induction false} EmitAllConcat(e: Env, o: Out, a: seq<Body>, b: seq<Body>)
    ensures EmitAll(e, o, a + b) == EmitAll(e, EmitAll(e, o, a), b)
  {
    if b == [] {
      assert a + b == a;
    } else {
      assert (a + b)[..|a + b| - 1] == a + b[..|b| - 1];
      EmitAllConcat(e, o, a, b[..|b| - 1]);
    }
  }

  lemma FinishingClosed(e: Env, s: State, finish: string, frags: seq<ToolDelta>, c: Client, n: nat)
    requires Finishing(e, s, finish, frags, c, n)
    ensures TextClosedIn(c.slots)
  {
    forall i: nat | Base(s) <= i < Base(s) + n ensures i in c.slots && c.slots[i].Closed? {
      assert ClosedTool(e, s, frags, c, i - Base(s));
    }
    forall i | i in c.slots && c.slots[i].Open? ensures c.slots[i].item.IsTool() {
      if i >= Base(s) {
        var idx := s.toolOrder[i - Base(s)];
        assert s.tools[idx].outputIndex == i;
        if i - Base(s) >= n {
          assert PendingTool(e, s, frags, c, i - Base(s));
        }
      }
    }
  }

  lemma FinishToolShape(e: Env, s: State, idx: int)
    requires idx in s.tools && s.tools[idx].name != "" && e.limit.None?
    requires !EmitAll(e, s.out, FinishEvents(e, s.tools[idx], idx)).err.Some?
    ensures var t1 := Announced(e, NameCall(e, s.tools[idx], idx), idx);
            FinishTool(e, s, idx)
            == (s.(tools := s.tools[idx := t1], out := EmitAll(e, s.out, FinishEvents(e, s.tools[idx], idx)),
                   outputs := StoreOutput(s.outputs, t1.outputIndex, ToolDone(e, t1))), false)
  {
    var named := NameCall(e, s.tools[idx], idx);
    var t1 := Announced(e, named, idx);
    EmitAllConcat(e, s.out, Announcement(e, named, idx), ToolClosing(e, t1));
    if EmitAll(e, s.out, Announcement(e, named, idx)).err.Some? {
      ErrorSticks(e, EmitAll(e, s.out, Announcement(e, named, idx)), ToolClosing(e, t1));
    }
  }

  /** A failed stream sends nothing more. */
  lemma {:induction false} ErrorSticks(e: Env, o: Out, bodies: seq<Body>)
    requires o.err.Some?
    ensures EmitAll(e, o, bodies) == o
  {
    if bodies != [] {
      ErrorSticks(e, o, bodies[..|bodies| - 1]);
    }
  }

  /** What Finishing says about the stream and about call number `n`, the next one to close. */
  lemma NextPending(e: Env, s: State, finish: string, frags: seq<ToolDelta>, c: Client, n: nat)
    requires Finishing(e, s, finish, frags, c, n) && n < |s.toolOrder|
    ensures e.limit.None? && Linked(s.out, c) && c.seen >= 2 && c.ending == Running
    ensures s.toolOrder == Order(frags) && s.toolOrder[n] in s.tools && PendingTool(e, s, frags, c, n)
    ensures s.tools[s.toolOrder[n]].outputIndex == |s.outputs|
    ensures s.tools[s.toolOrder[n]].name == CallOf(e, frags, Order(frags)[n]).name
  {
    assert PendingTool(e, s, frags, c, n);
  }

  /** One turn of finish's loop closes the next call. */
  lemma FinishToolStep(e: Env, s: State, finish: string, frags: seq<ToolDelta>, c: Client, n: nat) returns (c1: Client)
    requires Finishing(e, s, finish, frags, c, n) && n < |s.toolOrder|
    requires s.toolOrder[n] in s.tools && s.tools[s.toolOrder[n]].name != ""
    ensures var (s1, returned) := FinishTool(e, s, s.toolOrder[n]);
            !returned && Finishing(e, s1, finish, frags, c1, n + 1) && SameBut(s, s1)
  {
    hide Finishing, FinishTool, TakeAll, EmitAll, FinishEvents, ToolDone, Stable, NameCall, Announced, StoreOutput;
    var idx := s.toolOrder[n];
    var t := s.tools[idx];
    NextPending(e, s, finish, frags, c, n);
    FinishingClosed(e, s, finish, frags, c, n);
    c1 := ClientFinishesTool(e, t, idx, frags, c);
    EmitAllLinked(e, s.out, c, FinishEvents(e, t, idx));
    FinishToolShape(e, s, idx);
    StoreNext(s.outputs, ToolDone(e, Announced(e, NameCall(e, t, idx), idx)));
    FinishToolParts(e, s, FinishTool(e, s, idx).0, finish, frags, c, c1, n);
  }

  /** Everything but the events sent, the tool records and the stored outputs stays as it was. */
  ghost predicate SameBut(s: State, s1: State) {
    s1 == s.(out := s1.out, tools := s1.tools, outputs := s1.outputs)
  }

  /** `s1` and its client differ from `s` and its client by the closing of call number `n` only. */
  ghost predicate ClosedNext(e: Env, s: State, s1: State, frags: seq<ToolDelta>, c: Client, c1: Client, n: nat) {
    && n < |s.toolOrder| && s.toolOrder[n] in s.tools && s.toolOrder[n] in s1.tools && c.Following? && c1.Following?
    && var idx := s.toolOrder[n];
       var t1 := s1.tools[idx];
       && t1.outputIndex == s.tools[idx].outputIndex
       && ClosedRecord(e, t1, CallOf(e, frags, idx), idx)
       && s1 == s.(tools := s.tools[idx := t1], out := s1.out, outputs := s.outputs + [Some(ToolDone(e, t1))])
       && c1.slots == c.slots[t1.outputIndex := Closed(ToolDone(e, t1), Stable(e, frags, idx))]
  }

  lemma OtherClosedKept(e: Env, s: State, s1: State, frags: seq<ToolDelta>, c: Client, c1: Client, n: nat, k: nat)
    requires Accounted(s) && ClosedNext(e, s, s1, frags, c, c1, n) && k < |s.toolOrder| && k != n
    ensures ClosedTool(e, s, frags, c, k) ==> ClosedTool(e, s1, frags, c1, k)
    ensures PendingTool(e, s, frags, c, k) ==> PendingTool(e, s1, frags, c1, k)
  {
    assert s.toolOrder[k] != s.toolOrder[n];
    assert s.tools[s.toolOrder[k]].outputIndex != s.tools[s.toolOrder[n]].outputIndex;
  }

  lemma FinishToolParts(e: Env, s: State, s1: State, finish: string, frags: seq<ToolDelta>, c: Client, c1: Client,
                        n: nat)
    requires Finishing(e, s, finish, frags, c, n)
    requires Linked(s1.out, c1) && c1.seen >= 2 && c1.ending == Running
    requires ClosedNext(e, s, s1, frags, c, c1, n)
    ensures Finishing(e, s1, finish, frags, c1, n + 1)
  {
    var idx := s.toolOrder[n];
    RecordKeepsAccount(s, s1, idx, s1.tools[idx]);
    forall k: nat | k < |s.toolOrder| && k != n
      ensures if k < n then ClosedTool(e, s1, frags, c1, k) else PendingTool(e, s1, frags, c1, k)
    {
      OtherClosedKept(e, s, s1, frags, c, c1, n, k);
    }
    assert ClosedTool(e, s1, frags, c1, n);
    assert s1.outputs[..Base(s)] == s.outputs[..Base(s)];
    HeadSlotsKept(e, s, s1, finish, c.slots, c1.slots, Base(s) + n);
  }

  lemma FinishToolsTurn(e: Env, s: State, k: nat)
    requires k < |s.toolOrder| && Keyed(s)
    ensures var (s1, returned) := FinishTool(e, s, s.toolOrder[k]);
            FinishTools(e, s, k) == if returned then (s1, true) else FinishTools(e, s1, k + 1)
  {
  }

  /** All tool calls are closed and stored. */
  ghost predicate AllFinished(e: Env, s: State, finish: string, frags: seq<ToolDelta>, c: Client) {
    Finishing(e, s, finish, frags, c, |s.toolOrder|)
  }

  lemma FinishingBound(e: Env, s: State, finish: string, frags: seq<ToolDelta>, c: Client, k: nat)
    requires Finishing(e, s, finish, frags, c, k)
    ensures k <= |s.toolOrder| && s.toolOrder == Order(frags)
  {
  }

  lemma FinishToolsDone(e: Env, s: State, finish: string, frags: seq<ToolDelta>, c: Client)
    requires Finishing(e, s, finish, frags, c, |s.toolOrder|) && Keyed(s)
    ensures FinishTools(e, s, |s.toolOrder|) == (s, false) && AllFinished(e, s, finish, frags, c)
  {
    hide Finishing;
  }

  /** The rest of finish's loop, when every call still to come has a name: all calls are closed. */
  lemma {:induction false} FinishToolsAll(e: Env, s: State, finish: string, frags: seq<ToolDelta>, c: Client,
                                          k: nat) returns (c1: Client)
    requires Finishing(e, s, finish, frags, c, k) && Keyed(s) && k <= |s.toolOrder|
    requires forall j :: k <= j < |Order(frags)| ==> CallOf(e, frags, Order(frags)[j]).name != ""
    ensures var (s1, returned) := FinishTools(e, s, k);
            && !returned && AllFinished(e, s1, finish, frags, c1) && SameBut(s, s1)
    decreases |s.toolOrder| - k
  {
    hide Finishing, FinishTool, FinishTools, AllFinished;
    FinishingBound(e, s, finish, frags, c, k);
    if k == |s.toolOrder| {
      c1 := c;
      FinishToolsDone(e, s, finish, frags, c);
    } else {
      NextPending(e, s, finish, frags, c, k);
      var c0 := FinishToolStep(e, s, finish, frags, c, k);
      var s0 := FinishTool(e, s, s.toolOrder[k]).0;
      c1 := FinishToolsAll(e, s0, finish, frags, c0, k + 1);
      FinishToolsTurn(e, s, k);
    }
  }
}
