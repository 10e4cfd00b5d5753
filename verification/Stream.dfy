/**
 StreamChatToResponses and its streamState as an object that is updated step by step, proved to compute the machine
 of StreamSpec. (convert/stream.go)
 */
module Stream {
  import opened Common
  import Json
  import opened Protocol
  import opened Tools
  import opened StreamSpec

  /** The client connection: it accepts `limit` events and refuses every later one. */
  class SseWriter {
    var frames: seq<Event>
    const limit: Option<nat>

    constructor (limit: Option<nat>)
      ensures frames == [] && this.limit == limit
    {
      this.limit := limit;
      frames := [];
    }

    method Write(event: Event) returns (ok: bool)
      modifies this
      ensures ok == !(limit.Some? && |old(frames)| >= limit.value)
      ensures frames == if ok then old(frames) + [event] else old(frames)
    {
      ok := !(limit.Some? && |frames| >= limit.value);
      if ok {
        frames := frames + [event];
      }
    }
  }

  class StreamState {
    const w: SseWriter
    const codec: Json.Codec
    const toolContext: ToolContext
    const responseID: string

    var usage: Option<Usage>
    var err: Option<Fault>
    var sequence: nat
    var finishReason: string
    var nextIndex: nat
    var outputs: seq<Option<Item>>

    var reasoningOpen: bool
    var reasoningStarted: bool
    var reasoningIndex: nat
    var reasoningText: string

    var textOpen: bool
    var textStarted: bool
    var textIndex: nat
    var textBuf: string

    var tools: map<int, Tool>
    var toolOrder: seq<int>

    function Setting(): Env { Env(codec, toolContext, responseID, w.limit) }

    function View(): State
      reads this, w
    {
      State(Out(w.frames, err, sequence), usage, finishReason, nextIndex, outputs,
            Section(reasoningOpen, reasoningStarted, reasoningIndex, reasoningText),
            Section(textOpen, textStarted, textIndex, textBuf), tools, toolOrder)
    }

    constructor (w: SseWriter, codec: Json.Codec, toolContext: ToolContext, responseID: string)
      requires w.frames == []
      ensures View() == INITIAL
      ensures this.w == w && this.codec == codec && this.toolContext == toolContext && this.responseID == responseID
    {
      this.w, this.codec, this.toolContext, this.responseID := w, codec, toolContext, responseID;
      usage, err, sequence, finishReason := None, None, 0, "";
      nextIndex, outputs := 0, [];
      reasoningOpen, reasoningStarted, reasoningIndex, reasoningText := false, false, 0, "";
      textOpen, textStarted, textIndex, textBuf := false, false, 0, "";
      tools, toolOrder := map[], [];
    }

    method EmitEvent(body: Body)
      modifies this, w
      ensures View() == old(View()).(out := Emit(Setting(), old(View()).out, body))
    {
      if err.Some? {
        return;
      }
      sequence := sequence + 1;
      var ok := w.Write(Event(sequence, body));
      if !ok {
        err := Some(WriteFault);
      }
    }

    method Reject(reason: Reason)
      modifies this, w
      ensures View() == FailConversion(Setting(), old(View()), reason)
    {
      EmitEvent(FailedEvent(Conversion(reason)));
      err := Some(if err.None? then Rejected(reason) else RejectedUnwritten(reason));
    }

    method Store(index: nat, item: Item)
      modifies this`outputs
      ensures outputs == StoreOutput(old(outputs), index, item)
    {
      while |outputs| <= index
        invariant Padded(outputs, index + 1) == Padded(old(outputs), index + 1)
        decreases index + 1 - |outputs|
      {
        outputs := outputs + [None];
      }
      outputs := outputs[index := Some(item)];
    }

    method CloseReasoning()
      modifies this, w
      ensures View() == FinishReasoning(Setting(), old(View()))
    {
      if !reasoningOpen {
        return;
      }
      ghost var o := View().out;
      var text := reasoningText;
      EmitEvent(ReasoningTextDone(reasoningIndex, RsID(Setting()), text));
      EmitEvent(ReasoningPartDone(reasoningIndex, RsID(Setting()), text));
      var item := ReasoningDone(Setting(), text);
      EmitEvent(ItemDone(reasoningIndex, item));
      EmitThree(Setting(), o, ReasoningClosing(Setting(), old(View()).reasoning));
      if err.Some? {
        return;
      }
      reasoningOpen := false;
      Store(reasoningIndex, item);
    }

    method CloseText()
      modifies this, w
      ensures View() == FinishText(Setting(), old(View()))
    {
      if !textOpen {
        return;
      }
      ghost var o := View().out;
      var text := textBuf;
      EmitEvent(TextDone(textIndex, MsgID(Setting()), text));
      EmitEvent(ContentPartDone(textIndex, MsgID(Setting()), text));
      var itemStatus := Completed;
      if MapFinishReason(finishReason).0 == Incomplete {
        itemStatus := Incomplete;
      }
      var item := MessageItem(MsgID(Setting()), itemStatus, [OutputText(text)]);
      EmitEvent(ItemDone(textIndex, item));
      EmitThree(Setting(), o, MessageClosing(Setting(), finishReason, old(View()).message));
      if err.Some? {
        return;
      }
      textOpen := false;
      Store(textIndex, item);
    }

    method OpenReasoning()
      modifies this, w
      ensures var s := old(View());
              View() == s.(reasoning := OpenSection(s.reasoning, s.nextIndex),
                           nextIndex := NextAfter(s.reasoning, s.nextIndex),
                           out := EmitAll(Setting(), s.out, ReasoningOpening(Setting(), s.reasoning, s.nextIndex)))
    {
      ghost var s := View();
      EmitTwo(Setting(), s.out, ReasoningOpening(Setting(), s.reasoning, s.nextIndex));
      if !reasoningOpen {
        reasoningOpen, reasoningStarted, reasoningIndex := true, true, nextIndex;
        nextIndex := nextIndex + 1;
        EmitEvent(ItemAdded(reasoningIndex, ReasoningItem(RsID(Setting()), InProgress, [])));
        EmitEvent(ReasoningPartAdded(reasoningIndex, RsID(Setting())));
      }
    }

    method OnReasoning(delta: string)
      modifies this, w
      ensures View() == HandleReasoning(Setting(), old(View()), delta)
    {
      hide Emit, EmitAll, FailOut, ReasoningOpening;
      if reasoningStarted && !reasoningOpen {
        Reject(ReasoningReopened);
        return;
      }
      if textStarted || |tools| > 0 {
        Reject(ReasoningLate);
        return;
      }
      OpenReasoning();
      reasoningText := reasoningText + delta;
      EmitEvent(ReasoningDelta(reasoningIndex, RsID(Setting()), delta));
    }

    method OpenText()
      modifies this, w
      ensures var s := old(View());
              View() == s.(message := OpenSection(s.message, s.nextIndex),
                           nextIndex := NextAfter(s.message, s.nextIndex),
                           out := EmitAll(Setting(), s.out, MessageOpening(Setting(), s.message, s.nextIndex)))
    {
      ghost var s := View();
      EmitTwo(Setting(), s.out, MessageOpening(Setting(), s.message, s.nextIndex));
      if !textOpen {
        textOpen, textStarted, textIndex := true, true, nextIndex;
        nextIndex := nextIndex + 1;
        EmitEvent(ItemAdded(textIndex, MessageItem(MsgID(Setting()), InProgress, [])));
        EmitEvent(ContentPartAdded(textIndex, MsgID(Setting())));
      }
    }

    method OnText(delta: string)
      modifies this, w
      ensures View() == HandleText(Setting(), old(View()), delta)
    {
      hide Emit, EmitAll, FailOut, FinishReasoning, MessageOpening;
      if |tools| > 0 {
        Reject(TextAfterTools);
        return;
      }
      CloseReasoning();
      if err.Some? {
        return;
      }
      if textStarted && !textOpen {
        Reject(TextReopened);
        return;
      }
      OpenText();
      textBuf := textBuf + delta;
      EmitEvent(TextDelta(textIndex, MsgID(Setting()), delta));
    }

    /** startTool: announce the call of index `idx` if its name and id are known and it is not announced yet. */
    method StartTool(idx: int) returns (started: bool)
      requires idx in tools
      modifies this, w
      ensures started == CanStart(old(tools)[idx])
      ensures View() == old(View()).(tools := old(tools)[idx := Announced(Setting(), old(tools)[idx], idx)],
                                     out := EmitAll(Setting(), old(View()).out,
                                         Announcement(Setting(), old(tools)[idx], idx)))
    {
      var t := tools[idx];
      if t.added || t.name == "" || t.callID == "" {
        assert tools == tools[idx := t];
        return false;
      }
      ghost var s := View();
      ghost var e := Setting();
      var kind := ResolveTool(t.name, toolContext).kind;
      var id := ToolItemID(Setting(), kind, idx);
      tools := tools[idx := t.(itemID := id, added := true)];
      EmitEvent(ItemAdded(t.outputIndex, ToolCallItem(Setting(), id, InProgress, t.callID, t.name, "")));
      if err.None? && t.args != "" && kind == Function {
        EmitEvent(ArgsDelta(t.outputIndex, id, t.args));
      }
      EmitTwo(e, s.out, Announcement(e, t, idx));
      return true;
    }

    /** Record a fragment under its index; a new index claims the next output index. */
    method Register(d: ToolDelta)
      modifies this
      ensures View() == RegisterTool(old(View()), d)
    {
      ghost var s0 := View();
      var idx := IndexOf(d);
      if idx !in tools {
        tools := tools[idx := Tool(nextIndex, NoID, d.id, d.name, false, "")];
        nextIndex := nextIndex + 1;
        toolOrder := toolOrder + [idx];
      }
      var t := tools[idx];
      if d.id != "" {
        t := t.(callID := d.id);
      }
      if d.name != "" {
        t := t.(name := d.name);
      }
      if d.args != "" {
        t := t.(args := t.args + d.args);
      }
      tools := tools[idx := t];
      assert d.args == "" ==> t.args == t.args + d.args;
      assert "" + d.args == d.args;
      Registered(s0, View(), d);
    }

    method OnToolCall(d: ToolDelta)
      modifies this, w
      ensures View() == HandleToolCall(Setting(), old(View()), d)
    {
      hide Emit, EmitAll, FinishReasoning, FinishText, Announcement, Continuation, RegisterTool, Announced, CanStart;
      CloseReasoning();
      CloseText();
      if err.Some? {
        return;
      }
      var idx := IndexOf(d);
      Register(d);
      ghost var s1 := View();
      var started := StartTool(idx);
      var t := tools[idx];
      if err.None? && d.args != "" && t.added && !started && ResolveTool(t.name, toolContext).kind == Function {
        EmitEvent(ArgsDelta(t.outputIndex, t.itemID, d.args));
      }
      Continued(Setting(), s1, View(), d, started);
    }

    /** consumeChunk and handleDelta: what one decoded chunk does. */
    method OnChunk(c: Chunk)
      requires err.None?
      modifies this, w
      ensures View() == Feed(Setting(), old(View()), Signals(c))
    {
      ghost var s := View();
      ghost var e := Setting();
      ghost var done: seq<Signal> := [];
      if c.usage.Some? {
        usage := c.usage;
        FeedOne(e, s, done, SetUsage(c.usage.value));
        done := done + [SetUsage(c.usage.value)];
      }
      if c.choices == [] {
        return;
      }
      if c.choices[0].finishReason.Some? && c.choices[0].finishReason.value != "" {
        finishReason := c.choices[0].finishReason.value;
        FeedOne(e, s, done, SetFinish(finishReason));
        done := done + [SetFinish(finishReason)];
      }
      assert done == HeadSignals(c);
      assert View() == Feed(e, s, done);
      OnDelta(c.choices[0].delta, s, done);
    }

    method OnDelta(d: Delta, ghost s: State, ghost before: seq<Signal>)
      requires View() == Feed(Setting(), s, before) && err.None?
      modifies this, w
      ensures View() == Feed(Setting(), s, before + DeltaSignals(d))
    {
      hide HandleReasoning, HandleText, HandleToolCall, Feed, ToolSignals;
      ghost var e := Setting();
      ghost var done := before;
      if d.reasoning != "" {
        OnReasoning(d.reasoning);
        FeedOne(e, s, done, ReasoningPiece(d.reasoning));
        done := done + [ReasoningPiece(d.reasoning)];
      }
      if d.content != "" {
        FeedOne(e, s, done, TextPiece(d.content));
        done := done + [TextPiece(d.content)];
      }
      if err.None? && d.content != "" {
        OnText(d.content);
      }
      assert View() == Feed(e, s, done);
      assert before + DeltaSignals(d) == done + ToolSignals(d.toolCalls);
      OnToolCalls(d.toolCalls, s, done);
    }

    method OnToolCalls(calls: seq<ToolDelta>, ghost s: State, ghost before: seq<Signal>)
      requires View() == Feed(Setting(), s, before)
      modifies this, w
      ensures View() == Feed(Setting(), s, before + ToolSignals(calls))
    {
      hide HandleToolCall, Feed;
      ghost var e := Setting();
      ghost var sigs := ToolSignals(calls);
      assert before + sigs[..0] == before;
      var i := 0;
      while i < |calls| && err.None?
        invariant 0 <= i <= |calls|
        invariant View() == Feed(e, s, before + sigs[..i])
      {
        FeedOne(e, s, before + sigs[..i], sigs[i]);
        assert before + sigs[..i] + [sigs[i]] == before + sigs[..i + 1];
        OnToolCall(calls[i]);
        i := i + 1;
      }
      FeedStuck(e, s, before + sigs[..i], sigs[i..]);
      assert before + sigs[..i] + sigs[i..] == before + sigs;
    }

    /** One turn of finish's loop; `returned` says whether finish returned inside it. */
    method FinishCall(idx: int) returns (returned: bool)
      requires idx in tools
      modifies this, w
      ensures (View(), returned) == FinishTool(Setting(), old(View()), idx)
    {
      hide Announcement, Announced, EmitAll, Emit, StoreOutput, ToolCallItem, FailOut;
      ghost var e := Setting();
      if tools[idx].name == "" {
        Reject(ToolWithoutName(idx));
        return true;
      }
      if tools[idx].callID == "" {
        tools := tools[idx := tools[idx].(callID := SyntheticCallID(Setting(), idx))];
      }
      assert View() == old(View()).(tools := old(tools)[idx := NameCall(e, old(tools)[idx], idx)]);
      var _ := StartTool(idx);
      assert tools == old(tools)[idx := Announced(e, NameCall(e, old(tools)[idx], idx), idx)];
      if err.Some? {
        return true;
      }
      var t := tools[idx];
      CloseCall(t);
      return false;
    }

    /** The closing events of an announced call, and the item they close with. */
    method CloseCall(t: Tool)
      modifies this, w
      ensures View() == old(View()).(out := EmitAll(Setting(), old(View()).out, ToolClosing(Setting(), t)),
                                     outputs := StoreOutput(old(outputs), t.outputIndex, ToolDone(Setting(), t)))
    {
      hide Emit, EmitAll, StoreOutput, ToolCallItem, UnwrapCustomToolInput;
      ghost var e := Setting();
      ghost var o := View().out;
      var kind := ResolveTool(t.name, toolContext).kind;
      if kind == Custom {
        var input := UnwrapCustomToolInput(codec, t.args);
        if input != "" {
          EmitEvent(CustomDelta(t.outputIndex, t.itemID, input));
        }
        EmitEvent(CustomDone(t.outputIndex, t.itemID, input));
      } else if kind == Function {
        EmitEvent(ArgsDone(t.outputIndex, t.itemID, t.args));
      }
      var item := ToolCallItem(Setting(), t.itemID, Completed, t.callID, t.name, t.args);
      EmitEvent(ItemDone(t.outputIndex, item));
      EmitTwo(e, o, ToolClosing(e, t));
      if |ToolClosing(e, t)| == 3 { EmitThree(e, o, ToolClosing(e, t)); }
      Store(t.outputIndex, item);
    }

    method FinishAll()
      requires Keyed(View())
      modifies this, w
      ensures Keyed(View()) && View() == Finish(Setting(), old(View()))
    {
      hide FinishReasoning, FinishText, FinishTool, FinalBody;
      ghost var e := Setting();
      CloseReasoning();
      CloseText();
      HeadsKeepTools(e, old(View()));
      if err.Some? {
        return;
      }
      ghost var s0 := View();
      var i := 0;
      while i < |toolOrder|
        invariant 0 <= i <= |toolOrder| && Keyed(View())
        invariant FinishTools(e, View(), i) == FinishTools(e, s0, 0)
      {
        ghost var s1 := View();
        var returned := FinishCall(toolOrder[i]);
        assert Keyed(View());
        if returned {
          return;
        }
        i := i + 1;
      }
      if err.Some? {
        return;
      }
      EmitEvent(FinalBody(View()));
    }

    /** The two opening events. */
    method Open()
      requires View() == INITIAL
      modifies this, w
      ensures View() == Opening(Setting())
    {
      hide Emit;
      EmitTwo(Setting(), View().out, [CreatedEvent, InProgressEvent]);
      EmitEvent(CreatedEvent);
      EmitEvent(InProgressEvent);
    }

    /** After the end of the upstream. */
    method Conclude(sawDone: bool)
      requires Keyed(View())
      modifies this, w
      ensures Keyed(View()) && View() == Epilogue(Setting(), old(View()), sawDone)
    {
      hide Finish, FailOut;
      if !sawDone && finishReason == "" {
        Reject(ClosedEarly);
        return;
      }
      if |reasoningText| > 0 && |textBuf| == 0 && |tools| == 0 {
        Reject(ReasoningOnly);
        return;
      }
      FinishAll();
    }

    /** result: what the caller may save for the next turn. */
    method Result() returns (outcome: Outcome)
      requires Keyed(View())
      ensures outcome == ResultOf(View())
    {
      var callIDs: seq<string> := [];
      for i := 0 to |toolOrder|
        invariant callIDs == CallIDs(View(), i)
      {
        var id := tools[toolOrder[i]].callID;
        if id != "" {
          callIDs := callIDs + [id];
        }
      }
      outcome := Outcome(StreamResult(usage, callIDs, reasoningText, textBuf),
                         if err.Some? then Some(Converting(err.value)) else None);
    }

    method Bare(error: RunError) returns (outcome: Outcome)
      ensures outcome == BareResult(View(), error)
    {
      outcome := Outcome(StreamResult(usage, [], "", ""), Some(error));
    }
  }

  lemma HeadsKeepTools(e: Env, s: State)
    requires Keyed(s)
    ensures var s1 := FinishText(e, FinishReasoning(e, s));
            s1.tools == s.tools && s1.toolOrder == s.toolOrder && Keyed(s1)
  {
  }

  /** The four updates of a fragment's record are RegisterTool. */
  lemma Registered(s0: State, s1: State, d: ToolDelta)
    requires var idx := IndexOf(d);
             var t0 := if idx in s0.tools then s0.tools[idx] else Tool(s0.nextIndex, NoID, d.id, d.name, false, "");
             s1 == s0.(tools := s0.tools[idx := Extend(t0, d)],
                       nextIndex := if idx in s0.tools then s0.nextIndex else s0.nextIndex + 1,
                       toolOrder := if idx in s0.tools then s0.toolOrder else s0.toolOrder + [idx])
    ensures s1 == RegisterTool(s0, d)
  {
    assert "" + d.args == d.args;
  }

  /** StartTool and the delta after it are the second half of AppendTool. */
  lemma Continued(e: Env, s1: State, s2: State, d: ToolDelta, started: bool)
    requires IndexOf(d) in s1.tools
    requires var idx := IndexOf(d);
             var t := s1.tools[idx];
             var t1 := Announced(e, t, idx);
             var o := EmitAll(e, s1.out, Announcement(e, t, idx));
             && started == CanStart(t)
             && s2 == s1.(tools := s1.tools[idx := t1],
                          out := if o.err.None? && d.args != "" && t1.added && !started
                              && KindOf(e, t1.name) == Function
                                 then Emit(e, o, ArgsDelta(t1.outputIndex, t1.itemID, d.args)) else o)
    ensures var idx := IndexOf(d);
            var t := s1.tools[idx];
            s2 == s1.(tools := s1.tools[idx := Announced(e, t, idx)],
                      out := EmitAll(e, s1.out, if CanStart(t)
                                     then Announcement(e, t, idx) else Continuation(e, t, d.args)))
  {
    var t := s1.tools[IndexOf(d)];
    EmitTwo(e, s1.out, Continuation(e, t, d.args));
  }

  lemma FeedOne(e: Env, s: State, sigs: seq<Signal>, sig: Signal)
    ensures Feed(e, s, sigs + [sig]) == Apply(e, Feed(e, s, sigs), sig)
  {
    hide Apply;
    assert (sigs + [sig])[..|sigs|] == sigs;
  }

  lemma {:induction false} FeedStuck(e: Env, s: State, sigs: seq<Signal>, rest: seq<Signal>)
    requires Feed(e, s, sigs).Failed() || rest == []
    ensures Feed(e, s, sigs + rest) == Feed(e, s, sigs)
  {
    hide HandleReasoning, HandleText, HandleToolCall;
    if rest == [] {
      assert sigs + rest == sigs;
    } else {
      FeedStuck(e, s, sigs, rest[..|rest| - 1]);
      FeedOne(e, s, sigs + rest[..|rest| - 1], rest[|rest| - 1]);
      assert sigs + rest[..|rest| - 1] + [rest[|rest| - 1]] == sigs + rest;
    }
  }

  lemma EmitTwo(e: Env, o: Out, bodies: seq<Body>)
    ensures bodies == [] ==> EmitAll(e, o, bodies) == o
    ensures |bodies| == 1 ==> EmitAll(e, o, bodies) == Emit(e, o, bodies[0])
    ensures |bodies| == 2 ==> EmitAll(e, o, bodies) == Emit(e, Emit(e, o, bodies[0]), bodies[1])
  {
    hide Emit;
    if |bodies| == 1 {
      assert bodies[..0] == [];
      assert EmitAll(e, o, []) == o;
    } else if |bodies| == 2 {
      EmitTwo(e, o, bodies[..1]);
    }
  }

  lemma EmitThree(e: Env, o: Out, bodies: seq<Body>)
    requires |bodies| == 3
    ensures EmitAll(e, o, bodies) == Emit(e, Emit(e, Emit(e, o, bodies[0]), bodies[1]), bodies[2])
  {
    hide Emit;
    EmitTwo(e, o, bodies[..2]);
  }

  /** The signals of the turns already read, followed by those still to come. */
  ghost predicate ReadSoFar(turns: seq<Read>, i: nat, done: seq<Signal>) {
    && i <= |turns|
    && Received(turns) == Intake(done + Received(turns[i..]).signals, Received(turns[i..]).stop)
  }

  lemma ReceivedHead(turns: seq<Read>)
    requires turns != []
    requires !turns[0].cancelled && !turns[0].line.DoneMarker? && !turns[0].line.UpstreamError?
    ensures var more := LineSignals(turns[0].line);
            Received(turns)
            == match turns[0].error
               case Eof => Intake(more, StopEnd(false))
               case Broken(m) => Intake(more, StopBroken(m))
               case NoError => Intake(more + Received(turns[1..]).signals, Received(turns[1..]).stop)
  {
    hide LineSignals;
  }

  lemma ReadNext(turns: seq<Read>, i: nat, done: seq<Signal>)
    requires i < |turns| && ReadSoFar(turns, i, done)
    requires !turns[i].cancelled && !turns[i].line.DoneMarker? && !turns[i].line.UpstreamError?
    ensures turns[i].error.NoError? ==> ReadSoFar(turns, i + 1, done + LineSignals(turns[i].line))
    ensures turns[i].error.Eof? ==> Received(turns) == Intake(done + LineSignals(turns[i].line), StopEnd(false))
    ensures turns[i].error.Broken? ==>
        Received(turns) == Intake(done + LineSignals(turns[i].line), StopBroken(turns[i].error.message))
    ensures exists rest :: Received(turns).signals == done + LineSignals(turns[i].line) + rest
  {
    hide LineSignals, Received;
    ReceivedHead(turns[i..]);
    TailOf(turns, i);
    var more := LineSignals(turns[i].line);
    var rest := Received(turns[i + 1..]).signals;
    ThreeSignals(done, more, rest);
    ThreeSignals(done, more, []);
  }

  lemma TailOf(turns: seq<Read>, i: nat)
    requires i < |turns|
    ensures turns[i..][1..] == turns[i + 1..] && turns[i..][0] == turns[i]
  {
  }

  lemma ThreeSignals(a: seq<Signal>, b: seq<Signal>, c: seq<Signal>)
    ensures a + (b + c) == a + b + c && b + [] == b && a + b + [] == a + b
  {
  }

  /** A stream that failed on the signals so far has failed for good. */
  lemma FailedForGood(e: Env, turns: seq<Read>, done: seq<Signal>)
    requires exists rest :: Received(turns).signals == done + rest
    requires Feed(e, Opening(e), done).Failed()
    ensures AfterReads(e, turns) == Feed(e, Opening(e), done)
  {
    hide Feed, Received, Opening;
    var rest :| Received(turns).signals == done + rest;
    FeedStuck(e, Opening(e), done, rest);
  }

  lemma FedKeyed(e: Env, done: seq<Signal>)
    ensures Keyed(Feed(e, Opening(e), done))
  {
    hide Feed;
    FeedKeyed(e, Opening(e), done);
  }

  lemma FeedConcat(e: Env, s: State, a: seq<Signal>, b: seq<Signal>)
    ensures Feed(e, s, a + b) == Feed(e, Feed(e, s, a), b)
  {
    hide Apply;
    if b == [] {
      assert a + b == a;
    } else {
      FeedConcat(e, s, a, b[..|b| - 1]);
      assert (a + b)[..|a + b| - 1] == a + b[..|b| - 1];
    }
  }

  lemma FeedNone(e: Env, s: State)
    ensures Feed(e, s, []) == s
  {
  }

  /** What a decoded line does, and nothing for any other. */
  lemma Chunked(e: Env, s: State, line: Line)
    ensures line.Data? ==> Feed(e, s, LineSignals(line)) == Feed(e, s, Signals(line.chunk))
    ensures !line.Data? ==> Feed(e, s, LineSignals(line)) == s
  {
  }

  lemma ReadStops(turns: seq<Read>, i: nat, done: seq<Signal>)
    requires ReadSoFar(turns, i, done)
    requires i == |turns| || turns[i].cancelled || turns[i].line.DoneMarker? || turns[i].line.UpstreamError?
    ensures Received(turns) == Intake(done,
              if i == |turns| then StopEnd(false)
              else if turns[i].cancelled then StopCancelled
              else if turns[i].line.DoneMarker? then StopEnd(true)
              else StopUpstream(ErrorText(turns[i].line.message)))
  {
    assert done + [] == done;
  }

  method StreamChatToResponses(w: SseWriter, codec: Json.Codec, turns: seq<Read>, tools: ToolContext,
                               responseID: string)
    returns (outcome: Outcome)
    requires w.frames == []
    modifies w
    ensures var (s, result) := Run(Env(codec, tools, responseID, w.limit), turns);
            w.frames == s.out.trace && outcome == result
  {
    hide Feed, Received, Epilogue, LineSignals, Signals, ResultOf, Opening;
    ghost var e := Env(codec, tools, responseID, w.limit);
    var st := new StreamState(w, codec, tools, responseID);
    st.Open();
    ghost var done: seq<Signal> := [];
    assert Feed(e, Opening(e), []) == Opening(e) by { FeedNone(e, Opening(e)); }
    FedKeyed(e, done);
    if st.err.Some? {
      assert Received(turns).signals == [] + Received(turns).signals;
      FailedForGood(e, turns, []);
      outcome := st.Result();
      return;
    }
    var i := 0;
    var sawDone := false;
    assert turns[0..] == turns && [] + Received(turns).signals == Received(turns).signals;
    while i < |turns|
      invariant 0 <= i <= |turns| && ReadSoFar(turns, i, done) && !sawDone
      invariant st.View() == Feed(e, Opening(e), done) && st.err.None?
    {
      var turn := turns[i];
      FedKeyed(e, done);
      if turn.cancelled || turn.line.DoneMarker? || turn.line.UpstreamError? {
        ReadStops(turns, i, done);
      }
      if turn.cancelled {
        outcome := st.Bare(ContextCancelled);
        return;
      }
      if turn.line.DoneMarker? {
        sawDone := true;
        assert Received(turns) == Intake(done, StopEnd(sawDone));
        break;
      }
      if turn.line.UpstreamError? {
        var message := ErrorText(turn.line.message);
        st.EmitEvent(FailedEvent(Upstream(message)));
        outcome := st.Bare(UpstreamFault(message, st.err));
        return;
      }
      ReadNext(turns, i, done);
      if turn.line.Data? {
        st.OnChunk(turn.line.chunk);
      }
      Chunked(e, Feed(e, Opening(e), done), turn.line);
      FeedConcat(e, Opening(e), done, LineSignals(turn.line));
      done := done + LineSignals(turn.line);
      if st.err.Some? {
        FedKeyed(e, done);
        FailedForGood(e, turns, done);
        outcome := st.Result();
        return;
      }
      if turn.error.Eof? {
        assert Received(turns) == Intake(done, StopEnd(sawDone));
        break;
      }
      if turn.error.Broken? {
        st.EmitEvent(FailedEvent(ReadFailure(turn.error.message)));
        outcome := st.Bare(ReadFault(turn.error.message, st.err));
        return;
      }
      i := i + 1;
    }
    if i == |turns| {
      ReadStops(turns, i, done);
    }
    assert Received(turns) == Intake(done, StopEnd(sawDone));
    FedKeyed(e, done);
    st.Conclude(sawDone);
    outcome := st.Result();
  }
}
