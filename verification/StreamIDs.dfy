/**
 The ids of the items a stream announces: what they look like on the wire, and that no two items share one, whatever the
 upstream sends and wherever the writer fails. (convert/stream.go)
 */
module StreamIDs {
  import opened Common
  import opened Protocol
  import opened Tools
  import opened StreamSpec

  /** The id of an item begins like its kind, goes on with the response's id, and for a call ends with its number. */
  predicate IDFits(e: Env, item: Item) {
    match item
    case ReasoningItem(id, _, _) => id == ReasoningID(e.responseID)
    case MessageItem(id, _, _) => id == MessageID(e.responseID)
    case FunctionCall(id, _, _, _, _, _) => id.FunctionID? && id.base == e.responseID
    case CustomToolCall(id, _, _, _, _, _) => id.CustomID? && id.base == e.responseID
    case ToolSearchCall(id, _, _, _, _) => id.SearchID? && id.base == e.responseID
  }

  /** An item with this id has been announced. */
  predicate Known(s: State, id: ItemID) {
    match id
    case NoID => false
    case ReasoningID(_) => s.reasoning.started
    case MessageID(_) => s.message.started
    case FunctionID(_, n) => n in s.tools && s.tools[n].added
    case CustomID(_, n) => n in s.tools && s.tools[n].added
    case SearchID(_, n) => n in s.tools && s.tools[n].added
  }

  /** Two ids are of one call, or of the one reasoning or message item. */
  predicate SameItem(a: ItemID, b: ItemID) {
    if IsCall(a) then IsCall(b) && a.n == b.n else (a.ReasoningID? && b.ReasoningID?) || (a.MessageID? && b.MessageID?)
  }

  predicate IsCall(id: ItemID) { id.FunctionID? || id.CustomID? || id.SearchID? }

  ghost predicate AddedOnce(e: Env, s: State, trace: seq<Event>) {
    && (forall i :: 0 <= i < |trace| && trace[i].body.ItemAdded? ==>
          IDFits(e, trace[i].body.item) && Known(s, trace[i].body.item.id))
    && forall i, j :: 0 <= i < j < |trace| && trace[i].body.ItemAdded? && trace[j].body.ItemAdded? ==>
         !SameItem(trace[i].body.item.id, trace[j].body.item.id)
  }

  /** What was announced stays so. */
  ghost predicate KnownKept(s: State, s1: State) { forall id :: Known(s, id) ==> Known(s1, id) }

  /** A trace followed by the first few of some events. */
  ghost predicate Grows(trace: seq<Event>, trace1: seq<Event>, bodies: seq<Body>) {
    && trace <= trace1 && |trace1| <= |trace| + |bodies|
    && forall i :: |trace| <= i < |trace1| ==> trace1[i].body == bodies[i - |trace|]
  }

  lemma {:induction false} EmitAllGrows(e: Env, o: Out, bodies: seq<Body>)
    ensures Grows(o.trace, EmitAll(e, o, bodies).trace, bodies)
    ensures o.err.None? && EmitAll(e, o, bodies).err.None? ==>
              |EmitAll(e, o, bodies).trace| == |o.trace| + |bodies|
    ensures o.err.Some? ==> EmitAll(e, o, bodies) == o
  {
    if bodies != [] { EmitAllGrows(e, o, bodies[..|bodies| - 1]); }
  }

  predicate NoneAdded(bodies: seq<Body>) { forall i :: 0 <= i < |bodies| ==> !bodies[i].ItemAdded? }

  lemma GrowsQuietly(e: Env, s: State, s1: State, bodies: seq<Body>)
    requires AddedOnce(e, s, s.out.trace) && KnownKept(s, s1) && NoneAdded(bodies)
    requires Grows(s.out.trace, s1.out.trace, bodies)
    ensures AddedOnce(e, s1, s1.out.trace)
  {
    hide Known, IDFits, SameItem;
  }

  lemma GrowsByItem(e: Env, s: State, s1: State, bodies: seq<Body>)
    requires AddedOnce(e, s, s.out.trace) && KnownKept(s, s1) && Grows(s.out.trace, s1.out.trace, bodies)
    requires bodies != [] && bodies[0].ItemAdded? && NoneAdded(bodies[1..])
    requires var item := bodies[0].item;
             && IDFits(e, item) && Known(s1, item.id)
             && forall id :: SameItem(id, item.id) ==> !Known(s, id)
    ensures AddedOnce(e, s1, s1.out.trace)
  {
    hide Known, IDFits, SameItem;
    var n := |s.out.trace|;
    forall i | n < i < |s1.out.trace| ensures !s1.out.trace[i].body.ItemAdded? {
      assert s1.out.trace[i].body == bodies[i - n] == bodies[1..][i - n - 1];
    }
  }

  lemma EmitOne(e: Env, o: Out, body: Body)
    ensures Emit(e, o, body) == EmitAll(e, o, [body])
    ensures forall bodies :: EmitAll(e, o, bodies + [body]) == Emit(e, EmitAll(e, o, bodies), body)
  {
    assert [body][..0] == [];
    forall bodies: seq<Body> ensures (bodies + [body])[..|bodies|] == bodies {}
  }

  /** Events that announce nothing, whatever else changes. */
  lemma Quiet(e: Env, s: State, s1: State, bodies: seq<Body>)
    requires AddedOnce(e, s, s.out.trace) && KnownKept(s, s1) && NoneAdded(bodies)
    requires s1.out.trace == EmitAll(e, s.out, bodies).trace
    ensures AddedOnce(e, s1, s1.out.trace)
  {
    hide AddedOnce, KnownKept, EmitAll;
    EmitAllGrows(e, s.out, bodies);
    GrowsQuietly(e, s, s1, bodies);
  }

  /** Events that begin by announcing an item not known before. */
  lemma Announces(e: Env, s: State, s1: State, item: Item, index: nat, more: seq<Body>)
    requires AddedOnce(e, s, s.out.trace) && KnownKept(s, s1) && NoneAdded(more)
    requires s1.out.trace == EmitAll(e, s.out, [ItemAdded(index, item)] + more).trace
    requires IDFits(e, item) && Known(s1, item.id) && forall id :: SameItem(id, item.id) ==> !Known(s, id)
    ensures AddedOnce(e, s1, s1.out.trace)
  {
    hide AddedOnce, KnownKept, EmitAll, Known, IDFits, SameItem;
    var bodies := [ItemAdded(index, item)] + more;
    assert bodies[1..] == more;
    EmitAllGrows(e, s.out, bodies);
    GrowsByItem(e, s, s1, bodies);
  }

  ghost predicate IDInv(e: Env, s: State) { AddedOnce(e, s, s.out.trace) }

  lemma FailKeepsIDs(e: Env, s: State, reason: Reason)
    requires IDInv(e, s)
    ensures IDInv(e, FailConversion(e, s, reason))
  {
    hide AddedOnce, EmitAll;
    var b := FailedEvent(Conversion(reason));
    EmitOne(e, s.out, b);
    Quiet(e, s, FailConversion(e, s, reason), [b]);
  }

  lemma ClosingReasoning(e: Env, s: State)
    requires IDInv(e, s)
    ensures IDInv(e, FinishReasoning(e, s))
    ensures var s1 := FinishReasoning(e, s);
            && s1.message == s.message && s1.tools == s.tools && s1.toolOrder == s.toolOrder
            && s1.reasoning.started == s.reasoning.started
  {
    hide AddedOnce, EmitAll;
    if s.reasoning.open { Quiet(e, s, FinishReasoning(e, s), ReasoningClosing(e, s.reasoning)); }
  }

  lemma ClosingText(e: Env, s: State)
    requires IDInv(e, s)
    ensures IDInv(e, FinishText(e, s))
    ensures var s1 := FinishText(e, s);
            && s1.reasoning == s.reasoning && s1.tools == s.tools && s1.toolOrder == s.toolOrder
            && s1.message.started == s.message.started
  {
    hide AddedOnce, EmitAll;
    if s.message.open { Quiet(e, s, FinishText(e, s), MessageClosing(e, s.finishReason, s.message)); }
  }

  lemma ReasoningKeepsIDs(e: Env, s: State, delta: string)
    requires IDInv(e, s)
    ensures IDInv(e, HandleReasoning(e, s, delta))
  {
    hide AddedOnce, EmitAll, FailConversion;
    FailKeepsIDs(e, s, ReasoningReopened);
    FailKeepsIDs(e, s, ReasoningLate);
    if !(s.reasoning.started && !s.reasoning.open) && !(s.message.started || |s.tools| > 0) {
      var s1 := HandleReasoning(e, s, delta);
      var p := OpenSection(s.reasoning, s.nextIndex);
      var d := ReasoningDelta(p.index, RsID(e), delta);
      EmitOne(e, s.out, d);
      var opening := ReasoningOpening(e, s.reasoning, s.nextIndex);
      assert s1.out == EmitAll(e, s.out, opening + [d]);
      if s.reasoning.open {
        assert opening + [d] == [d];
        Quiet(e, s, s1, [d]);
      } else {
        assert opening + [d] == [opening[0]] + [opening[1], d];
        Announces(e, s, s1, ReasoningItem(RsID(e), InProgress, []), s.nextIndex, [opening[1], d]);
      }
    }
  }

  lemma AppendTextKeepsIDs(e: Env, s: State, delta: string)
    requires IDInv(e, s) && !(s.message.started && !s.message.open)
    ensures IDInv(e, AppendText(e, s, delta))
  {
    hide AddedOnce, EmitAll;
    var s1 := AppendText(e, s, delta);
    var p := OpenSection(s.message, s.nextIndex);
    var d := TextDelta(p.index, MsgID(e), delta);
    EmitOne(e, s.out, d);
    var opening := MessageOpening(e, s.message, s.nextIndex);
    assert s1.out == EmitAll(e, s.out, opening + [d]);
    if s.message.open {
      assert opening + [d] == [d];
      Quiet(e, s, s1, [d]);
    } else {
      assert opening + [d] == [opening[0]] + [opening[1], d];
      Announces(e, s, s1, MessageItem(MsgID(e), InProgress, []), s.nextIndex, [opening[1], d]);
    }
  }

  lemma TextKeepsIDs(e: Env, s: State, delta: string)
    requires IDInv(e, s)
    ensures IDInv(e, HandleText(e, s, delta))
  {
    hide IDInv, FinishReasoning, FailConversion, AppendText;
    FailKeepsIDs(e, s, TextAfterTools);
    ClosingReasoning(e, s);
    var s0 := FinishReasoning(e, s);
    FailKeepsIDs(e, s0, TextReopened);
    if !(s0.message.started && !s0.message.open) { AppendTextKeepsIDs(e, s0, delta); }
  }

  /** The announcement of a call, and what follows it. */
  lemma CallAnnounced(e: Env, s: State, s1: State, t: Tool, idx: int, args: string)
    requires IDInv(e, s) && (idx in s.tools ==> s.tools[idx].added == t.added) && (idx !in s.tools ==> !t.added)
    requires s1.reasoning == s.reasoning && s1.message == s.message
    requires s1.tools == s.tools[idx := Announced(e, t, idx)]
    requires s1.out == EmitAll(e, s.out, if CanStart(t) then Announcement(e, t, idx) else Continuation(e, t, args))
    ensures IDInv(e, s1)
  {
    hide AddedOnce, EmitAll;
    if CanStart(t) {
      var item := ToolCallItem(e, ToolItemID(e, KindOf(e, t.name), idx), InProgress, t.callID, t.name, "");
      var all := Announcement(e, t, idx);
      assert all == [all[0]] + all[1..];
      Announces(e, s, s1, item, t.outputIndex, all[1..]);
    } else {
      Quiet(e, s, s1, Continuation(e, t, args));
    }
  }

  lemma CallKeepsIDs(e: Env, s: State, d: ToolDelta)
    requires IDInv(e, s)
    ensures IDInv(e, HandleToolCall(e, s, d))
  {
    hide IDInv, FinishReasoning, FinishText, Announced, Announcement, Continuation, EmitAll, CanStart;
    ClosingReasoning(e, s);
    ClosingText(e, FinishReasoning(e, s));
    var s0 := FinishText(e, FinishReasoning(e, s));
    if !s0.Failed() {
      var idx := IndexOf(d);
      var t := RegisterTool(s0, d).tools[idx];
      CallAnnounced(e, s0, AppendTool(e, s0, d), t, idx, d.args);
    }
  }

  lemma ApplyKeepsIDs(e: Env, s: State, sig: Signal)
    requires IDInv(e, s)
    ensures IDInv(e, Apply(e, s, sig))
  {
    hide HandleReasoning, HandleText, HandleToolCall;
    if !s.Failed() {
      match sig
      case SetUsage(u) => Untouched(e, s, s.(usage := Some(u)));
      case SetFinish(r) => Untouched(e, s, s.(finishReason := r));
      case ReasoningPiece(t) => ReasoningKeepsIDs(e, s, t);
      case TextPiece(t) => TextKeepsIDs(e, s, t);
      case ToolPiece(d) => CallKeepsIDs(e, s, d);
    }
  }

  lemma Untouched(e: Env, s: State, s1: State)
    requires IDInv(e, s) && s1.out == s.out && s1.tools == s.tools
    requires s1.reasoning.started == s.reasoning.started && s1.message.started == s.message.started
    ensures IDInv(e, s1)
  {
    hide IDFits, SameItem;
    assert KnownKept(s, s1);
  }

  lemma {:induction false} FeedKeepsIDs(e: Env, s: State, sigs: seq<Signal>)
    requires IDInv(e, s)
    ensures IDInv(e, Feed(e, s, sigs))
  {
    hide IDInv, Apply;
    if sigs != [] {
      FeedKeepsIDs(e, s, sigs[..|sigs| - 1]);
      ApplyKeepsIDs(e, Feed(e, s, sigs[..|sigs| - 1]), sigs[|sigs| - 1]);
    }
  }

  // ---------- the end ----------

  lemma FinishingKeepsIDs(e: Env, s: State, idx: int)
    requires IDInv(e, s) && idx in s.tools
    ensures IDInv(e, FinishTool(e, s, idx).0)
  {
    hide IDInv, Announced, Announcement, EmitAll, ToolClosing, FailConversion;
    if s.tools[idx].name == "" {
      FailKeepsIDs(e, s, ToolWithoutName(idx));
    } else {
      var named := NameCall(e, s.tools[idx], idx);
      var s1 := s.(tools := s.tools[idx := Announced(e, named, idx)],
                   out := EmitAll(e, s.out, Announcement(e, named, idx)));
      AnnouncedAtLast(e, s, s1, named, idx);
      if s1.out.err.None? { ClosingCall(e, s1, FinishTool(e, s, idx).0, s1.tools[idx]); }
    }
  }

  lemma AnnouncedAtLast(e: Env, s: State, s1: State, t: Tool, idx: int)
    requires IDInv(e, s) && idx in s.tools && s.tools[idx].added == t.added
    requires s1 == s.(tools := s.tools[idx := Announced(e, t, idx)], out := EmitAll(e, s.out, Announcement(e, t, idx)))
    ensures IDInv(e, s1)
  {
    hide AddedOnce, EmitAll, IDInv;
    NothingSaid(e, t);
    CallAnnounced(e, s, s1, t, idx, "");
  }

  lemma NothingSaid(e: Env, t: Tool)
    ensures Continuation(e, t, "") == []
  {
  }

  lemma ClosingCall(e: Env, s: State, s1: State, t: Tool)
    requires IDInv(e, s) && s1 == s.(out := EmitAll(e, s.out, ToolClosing(e, t)), outputs := s1.outputs)
    ensures IDInv(e, s1)
  {
    hide AddedOnce, EmitAll;
    ClosingAddsNone(e, t);
    Quiet(e, s, s1, ToolClosing(e, t));
  }

  lemma ClosingAddsNone(e: Env, t: Tool)
    ensures NoneAdded(ToolClosing(e, t))
  {
    hide ToolDone, UnwrapCustomToolInput, KindOf;
  }

  lemma {:induction false} FinishToolsKeepIDs(e: Env, s: State, k: nat)
    requires k <= |s.toolOrder| && Keyed(s) && IDInv(e, s)
    ensures IDInv(e, FinishTools(e, s, k).0)
    decreases |s.toolOrder| - k
  {
    hide IDInv, FinishTool;
    if k < |s.toolOrder| {
      FinishingKeepsIDs(e, s, s.toolOrder[k]);
      var (s1, returned) := FinishTool(e, s, s.toolOrder[k]);
      if !returned { FinishToolsKeepIDs(e, s1, k + 1); }
    }
  }

  lemma SentKeepsIDs(e: Env, s: State, b: Body)
    requires IDInv(e, s) && !b.ItemAdded?
    ensures IDInv(e, s.(out := Emit(e, s.out, b)))
  {
    hide AddedOnce, EmitAll;
    EmitOne(e, s.out, b);
    Quiet(e, s, s.(out := Emit(e, s.out, b)), [b]);
  }

  lemma EpilogueKeepsIDs(e: Env, s: State, sawDone: bool)
    requires Keyed(s) && IDInv(e, s)
    ensures IDInv(e, Epilogue(e, s, sawDone))
  {
    hide IDInv, FinishReasoning, FinishText, FailConversion, FinishTools, Emit;
    FailKeepsIDs(e, s, ClosedEarly);
    FailKeepsIDs(e, s, ReasoningOnly);
    ClosingReasoning(e, s);
    ClosingText(e, FinishReasoning(e, s));
    var s0 := FinishText(e, FinishReasoning(e, s));
    if !s0.Failed() {
      FinishToolsKeepIDs(e, s0, 0);
      var s1 := FinishTools(e, s0, 0).0;
      SentKeepsIDs(e, s1, FinalBody(s1));
    }
  }

  lemma OpeningHasNoIDs(e: Env)
    ensures IDInv(e, Opening(e)) && Keyed(Opening(e))
  {
    hide AddedOnce, EmitAll;
    assert AddedOnce(e, INITIAL, INITIAL.out.trace) by { NothingAdded(e); }
    Quiet(e, INITIAL, Opening(e), [CreatedEvent, InProgressEvent]);
  }

  lemma NothingAdded(e: Env)
    ensures AddedOnce(e, INITIAL, [])
  {
  }

  /**
   Whatever the upstream sends and wherever the writer fails: every announced item has an id that begins like its kind
   and holds the response's id, and no two announced items have the same id on the wire.
   */
  lemma IDsAnnounced(e: Env, turns: seq<Read>)
    ensures var trace := Run(e, turns).0.out.trace;
            && (forall i :: 0 <= i < |trace| && trace[i].body.ItemAdded? ==> IDFits(e, trace[i].body.item))
            && forall i, j :: 0 <= i < j < |trace| && trace[i].body.ItemAdded? && trace[j].body.ItemAdded? ==>
                 IDText(trace[i].body.item.id) != IDText(trace[j].body.item.id)
  {
    hide Received, Feed, Opening, Epilogue, Emit, AddedOnce, IDText, ResultOf, IDFits, SameItem;
    OpeningHasNoIDs(e);
    FeedKeepsIDs(e, Opening(e), Received(turns).signals);
    FeedKeyed(e, Opening(e), Received(turns).signals);
    var s := AfterReads(e, turns);
    match Received(turns).stop {
      case StopCancelled =>
      case StopUpstream(m) => SentKeepsIDs(e, s, FailedEvent(Upstream(m)));
      case StopBroken(m) => SentKeepsIDs(e, s, FailedEvent(ReadFailure(m)));
      case StopEnd(sawDone) => EpilogueKeepsIDs(e, s, sawDone);
    }
    AddedMeans(e, Run(e, turns).0);
  }

  lemma AddedMeans(e: Env, s: State)
    requires IDInv(e, s)
    ensures var trace := s.out.trace;
            && (forall i :: 0 <= i < |trace| && trace[i].body.ItemAdded? ==> IDFits(e, trace[i].body.item))
            && forall i, j :: 0 <= i < j < |trace| && trace[i].body.ItemAdded? && trace[j].body.ItemAdded? ==>
                 IDText(trace[i].body.item.id) != IDText(trace[j].body.item.id)
  {
    hide IDText, SameItem, IDFits, Known;
    var trace := s.out.trace;
    forall i, j | 0 <= i < j < |trace| && trace[i].body.ItemAdded? && trace[j].body.ItemAdded?
      ensures IDText(trace[i].body.item.id) != IDText(trace[j].body.item.id)
    {
      TextsDiffer(e, trace[i].body.item, trace[j].body.item);
    }
  }

  lemma TextsDiffer(e: Env, a: Item, b: Item)
    requires IDFits(e, a) && IDFits(e, b) && !SameItem(a.id, b.id)
    ensures IDText(a.id) != IDText(b.id)
  {
    hide Itoa;
    var s, t := IDText(a.id), IDText(b.id);
    if IsCall(a.id) && IsCall(b.id) {
      NumbersDiffer(e.responseID, a.id, b.id);
    } else {
      assert s[0] == (if a.ReasoningItem? then 'r' else if a.MessageItem? then 'm' else if a.FunctionCall? then 'f'
                      else if a.CustomToolCall? then 'c' else 't');
      assert t[0] == (if b.ReasoningItem? then 'r' else if b.MessageItem? then 'm' else if b.FunctionCall? then 'f'
                      else if b.CustomToolCall? then 'c' else 't');
    }
  }

  lemma NumbersDiffer(base: string, a: ItemID, b: ItemID)
    requires IsCall(a) && IsCall(b) && a.base == base == b.base && a.n != b.n
    ensures IDText(a) != IDText(b)
  {
    hide Itoa;
    var s, t := IDText(a), IDText(b);
    if s == t {
      assert s[0] == t[0];
      var front := (if a.FunctionID? then "fc_" else if a.CustomID? then "ctc_" else "tsc_") + base + "_";
      assert s == front + Itoa(a.n) && t == front + Itoa(b.n);
      assert s[|front|..] == Itoa(a.n) && t[|front|..] == Itoa(b.n);
      ItoaDiffer(a.n, b.n);
    }
  }

  lemma {:induction false} DigitsBegin(n: nat)
    ensures Digits(n)[0] != '-'
  {
    if n >= 10 { DigitsBegin(n / 10); }
  }

  lemma ItoaDiffer(m: int, n: int)
    requires Itoa(m) == Itoa(n)
    ensures m == n
  {
    if m >= 0 { DigitsBegin(m); }
    if n >= 0 { DigitsBegin(n); }
    if m < 0 && n < 0 {
      assert Itoa(m)[1..] == Digits(-m) && Itoa(n)[1..] == Digits(-n);
      DigitsDiffer(-m, -n);
    } else if m >= 0 && n >= 0 {
      DigitsDiffer(m, n);
    }
  }

  /** A call the upstream gave no id gets one from the response's id and its number, and no two calls the same. */
  lemma SyntheticIDs(e: Env, idx: int, other: int)
    ensures exists base: string ::
              && SyntheticCallID(e, idx) == "call_" + base + "_" + Itoa(idx)
              && (e.responseID == "resp_" + base || (e.responseID == base && !("resp_" <= base)))
    ensures SyntheticCallID(e, idx) == SyntheticCallID(e, other) ==> idx == other
  {
    hide Itoa;
    var id := e.responseID;
    var base := if "resp_" <= id then id[5..] else id;
    assert "resp_" <= id ==> id == "resp_" + base;
    var front := "call_" + base + "_";
    assert SyntheticCallID(e, idx) == front + Itoa(idx) && SyntheticCallID(e, other) == front + Itoa(other);
    if SyntheticCallID(e, idx) == SyntheticCallID(e, other) {
      assert SyntheticCallID(e, idx)[|front|..] == Itoa(idx) && SyntheticCallID(e, other)[|front|..] == Itoa(other);
      ItoaDiffer(idx, other);
    }
  }
}
