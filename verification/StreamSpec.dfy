/**
 The streaming conversion as a state machine on values: the state of one Chat stream being turned
 into Responses events, and what each upstream signal does to it. (convert/stream.go)
 The class in Stream.dfy is proved to compute exactly this machine; the properties are proved here on.
 */
module StreamSpec {
  import opened Common
  import opened Json
  import opened Protocol
  import opened Tools

  // ---------- upstream side ----------

  /** One fragment of a tool call. */
  datatype ToolDelta = ToolDelta(index: Option<int>, id: string, name: string, args: string)

  datatype Delta = Delta(reasoning: string, content: string, toolCalls: seq<ToolDelta>)

  datatype Choice = Choice(delta: Delta, finishReason: Option<string>)

  datatype Chunk = Chunk(usage: Option<Usage>, choices: seq<Choice>)

  /** What one line read from the upstream says. */
  datatype Line =
    | NotData
    | DoneMarker
    | UpstreamError(message: string)
    | Blank
    | Malformed
    | Data(chunk: Chunk)

  datatype ReadError = NoError | Eof | Broken(message: string)

  /** One turn of the read loop: the line, the error that came with it, and whether the client had gone by then. */
  datatype Read = Read(line: Line, error: ReadError, cancelled: bool)

  /** The state changes a chunk asks for, one at a time. */
  datatype Signal =
    | SetUsage(usage: Usage)
    | SetFinish(reason: string)
    | ReasoningPiece(text: string)
    | TextPiece(text: string)
    | ToolPiece(delta: ToolDelta)

  function ToolSignals(calls: seq<ToolDelta>): seq<Signal> {
    seq(|calls|, i requires 0 <= i < |calls| => ToolPiece(calls[i]))
  }

  function DeltaSignals(d: Delta): seq<Signal> {
    (if d.reasoning == "" then [] else [ReasoningPiece(d.reasoning)])
    + (if d.content == "" then [] else [TextPiece(d.content)])
    + ToolSignals(d.toolCalls)
  }

  function HeadSignals(c: Chunk): seq<Signal> {
    (if c.usage.None? then [] else [SetUsage(c.usage.value)])
    + (if c.choices == [] || c.choices[0].finishReason.None? || c.choices[0].finishReason.value == "" then []
       else [SetFinish(c.choices[0].finishReason.value)])
  }

  function Signals(c: Chunk): seq<Signal> {
    HeadSignals(c) + if c.choices == [] then [] else DeltaSignals(c.choices[0].delta)
  }

  // ---------- client side ----------

  datatype Reason =
    | ReasoningReopened
    | ReasoningLate
    | TextAfterTools
    | TextReopened
    | ToolWithoutName(index: int)
    | ClosedEarly
    | ReasoningOnly

  datatype Cause = Conversion(reason: Reason) | Upstream(message: string) | ReadFailure(message: string)

  datatype Final = Final(status: Status, incompleteReason: string, output: seq<Option<Item>>,
                         usage: Option<ResponseUsage>)

  datatype Body =
    | CreatedEvent
    | InProgressEvent
    | ItemAdded(index: nat, item: Item)
    | ReasoningPartAdded(index: nat, itemID: ItemID)
    | ReasoningDelta(index: nat, itemID: ItemID, delta: string)
    | ReasoningTextDone(index: nat, itemID: ItemID, text: string)
    | ReasoningPartDone(index: nat, itemID: ItemID, text: string)
    | ContentPartAdded(index: nat, itemID: ItemID)
    | TextDelta(index: nat, itemID: ItemID, delta: string)
    | TextDone(index: nat, itemID: ItemID, text: string)
    | ContentPartDone(index: nat, itemID: ItemID, text: string)
    | ArgsDelta(index: nat, itemID: ItemID, delta: string)
    | ArgsDone(index: nat, itemID: ItemID, arguments: string)
    | CustomDelta(index: nat, itemID: ItemID, delta: string)
    | CustomDone(index: nat, itemID: ItemID, input: string)
    | ItemDone(index: nat, item: Item)
    | CompletedEvent(response: Final)
    | IncompleteEvent(response: Final)
    | FailedEvent(cause: Cause)

  datatype Event = Event(sequence: nat, body: Body)

  // ---------- the machine ----------

  /** What is fixed for one run. The writer accepts `limit` events and fails from then on; None never fails. */
  datatype Env = Env(codec: Codec, tools: ToolContext, responseID: string, limit: Option<nat>)

  datatype Fault = WriteFault | Rejected(reason: Reason) | RejectedUnwritten(reason: Reason)

  datatype Tool = Tool(outputIndex: nat, itemID: ItemID, callID: string, name: string, added: bool, args: string)

  /** What has gone out: the events the client received, the sticky error, and the last sequence number used. */
  datatype Out = Out(trace: seq<Event>, err: Option<Fault>, sequence: nat)

  /** The reasoning item or the message item. */
  datatype Section = Section(open: bool, started: bool, index: nat, text: string)

  datatype State = State(
    out: Out, usage: Option<Usage>, finishReason: string,
    nextIndex: nat, outputs: seq<Option<Item>>,
    reasoning: Section, message: Section,
    tools: map<int, Tool>, toolOrder: seq<int>)
  {
    predicate Failed() { out.err.Some? }
  }

  const NO_SECTION := Section(false, false, 0, "")

  const INITIAL := State(Out([], None, 0), None, "", 0, [], NO_SECTION, NO_SECTION, map[], [])

  function RsID(e: Env): ItemID { ReasoningID(e.responseID) }

  function MsgID(e: Env): ItemID { MessageID(e.responseID) }

  function ToolItemID(e: Env, kind: Kind, idx: int): ItemID {
    match kind
    case Custom => CustomID(e.responseID, idx)
    case ToolSearch => SearchID(e.responseID, idx)
    case _ => FunctionID(e.responseID, idx)
  }

  const RESPONSE_PREFIX := "resp_"

  /** The call id given at the end to a tool call the upstream left without one. */
  function SyntheticCallID(e: Env, idx: int): string {
    "call_" + (if RESPONSE_PREFIX <= e.responseID then e.responseID[|RESPONSE_PREFIX|..] else e.responseID) + "_"
        + Itoa(idx)
  }

  function KindOf(e: Env, name: string): Kind { ResolveTool(name, e.tools).kind }

  /** toolCallItem: the output item of a tool call, shaped by the tool its name resolves to. */
  function ToolCallItem(e: Env, id: ItemID, status: Status, callID: string, name: string, args: string): Item {
    var ref := ResolveTool(name, e.tools);
    match ref.kind
    case Custom => CustomToolCall(id, status, callID, ref.name, ref.namespace, UnwrapCustomToolInput(e.codec, args))
    case ToolSearch =>
      ToolSearchCall(id, status, callID, if ref.execution == "" then "client" else ref.execution,
                     NormalizeToolSearchArguments(e.codec, args))
    case _ => FunctionCall(id, status, callID, ref.name, ref.namespace, args)
  }

  /** Number one event and write it, unless an earlier error already stopped the stream. */
  function Emit(e: Env, o: Out, body: Body): Out {
    if o.err.Some? then o
    else if e.limit.Some? && |o.trace| >= e.limit.value then o.(sequence := o.sequence + 1, err := Some(WriteFault))
    else o.(sequence := o.sequence + 1, trace := o.trace + [Event(o.sequence + 1, body)])
  }

  function EmitAll(e: Env, o: Out, bodies: seq<Body>): Out {
    if bodies == [] then o else Emit(e, EmitAll(e, o, bodies[..|bodies| - 1]), bodies[|bodies| - 1])
  }

  function FailOut(e: Env, o: Out, reason: Reason): Out {
    var o1 := Emit(e, o, FailedEvent(Conversion(reason)));
    o1.(err := Some(if o1.err.None? then Rejected(reason) else RejectedUnwritten(reason)))
  }

  function FailConversion(e: Env, s: State, reason: Reason): State {
    s.(out := FailOut(e, s.out, reason))
  }

  function Padded(outputs: seq<Option<Item>>, n: nat): (r: seq<Option<Item>>)
    ensures |r| >= n && |r| >= |outputs|
    decreases n - |outputs|
  {
    if |outputs| >= n then outputs else Padded(outputs + [None], n)
  }

  function StoreOutput(outputs: seq<Option<Item>>, index: nat, item: Item): seq<Option<Item>> {
    Padded(outputs, index + 1)[index := Some(item)]
  }

  function ReasoningDone(e: Env, text: string): Item { ReasoningItem(RsID(e), Completed, [text]) }

  function ReasoningClosing(e: Env, p: Section): seq<Body> {
    var id := RsID(e);
    [ReasoningTextDone(p.index, id, p.text), ReasoningPartDone(p.index, id, p.text),
     ItemDone(p.index, ReasoningDone(e, p.text))]
  }

  function FinishReasoning(e: Env, s: State): State {
    if !s.reasoning.open then s
    else
      var o := EmitAll(e, s.out, ReasoningClosing(e, s.reasoning));
      if o.err.Some? then s.(out := o)
      else
        s.(out := o, reasoning := s.reasoning.(open := false),
           outputs := StoreOutput(s.outputs, s.reasoning.index, ReasoningDone(e, s.reasoning.text)))
  }

  /** The closed message item carries the status known from the finish reason at that moment. */
  function MessageDone(e: Env, finishReason: string, text: string): Item {
    MessageItem(MsgID(e), MapFinishReason(finishReason).0, [OutputText(text)])
  }

  function MessageClosing(e: Env, finishReason: string, p: Section): seq<Body> {
    var id := MsgID(e);
    [TextDone(p.index, id, p.text), ContentPartDone(p.index, id, p.text),
     ItemDone(p.index, MessageDone(e, finishReason, p.text))]
  }

  function FinishText(e: Env, s: State): State {
    if !s.message.open then s
    else
      var o := EmitAll(e, s.out, MessageClosing(e, s.finishReason, s.message));
      if o.err.Some? then s.(out := o)
      else
        s.(out := o, message := s.message.(open := false),
           outputs := StoreOutput(s.outputs, s.message.index, MessageDone(e, s.finishReason, s.message.text)))
  }

  /** Close the reasoning and message items, as at the first tool call and at the end. */
  function CloseHeads(e: Env, s: State): State { FinishText(e, FinishReasoning(e, s)) }

  /** Claim the next output index for an item that is not open yet. */
  function OpenSection(p: Section, next: nat): Section {
    if p.open then p else p.(open := true, started := true, index := next)
  }

  function NextAfter(p: Section, next: nat): nat { if p.open then next else next + 1 }

  function ReasoningOpening(e: Env, p: Section, next: nat): seq<Body> {
    if p.open then []
    else [ItemAdded(next, ReasoningItem(RsID(e), InProgress, [])), ReasoningPartAdded(next, RsID(e))]
  }

  function HandleReasoning(e: Env, s: State, delta: string): State {
    if s.reasoning.started && !s.reasoning.open then FailConversion(e, s, ReasoningReopened)
    else if s.message.started || |s.tools| > 0 then FailConversion(e, s, ReasoningLate)
    else
      var p := OpenSection(s.reasoning, s.nextIndex);
      var o := EmitAll(e, s.out, ReasoningOpening(e, s.reasoning, s.nextIndex));
      s.(reasoning := p.(text := p.text + delta), nextIndex := NextAfter(s.reasoning, s.nextIndex),
         out := Emit(e, o, ReasoningDelta(p.index, RsID(e), delta)))
  }

  function MessageOpening(e: Env, p: Section, next: nat): seq<Body> {
    if p.open then []
    else [ItemAdded(next, MessageItem(MsgID(e), InProgress, [])), ContentPartAdded(next, MsgID(e))]
  }

  /** A text delta once the reasoning item is closed. */
  function AppendText(e: Env, s: State, delta: string): State {
    var p := OpenSection(s.message, s.nextIndex);
    var o := EmitAll(e, s.out, MessageOpening(e, s.message, s.nextIndex));
    s.(message := p.(text := p.text + delta), nextIndex := NextAfter(s.message, s.nextIndex),
       out := Emit(e, o, TextDelta(p.index, MsgID(e), delta)))
  }

  function HandleText(e: Env, s: State, delta: string): State {
    if |s.tools| > 0 then FailConversion(e, s, TextAfterTools)
    else
      var s0 := FinishReasoning(e, s);
      if s0.Failed() then s0
      else if s0.message.started && !s0.message.open then FailConversion(e, s0, TextReopened)
      else AppendText(e, s0, delta)
  }

  function IndexOf(d: ToolDelta): int { if d.index.None? then 0 else d.index.value }

  /** The tool record after a fragment: a non-empty id or name replaces the one known so far. */
  function Extend(t: Tool, d: ToolDelta): Tool {
    t.(callID := if d.id != "" then d.id else t.callID,
       name := if d.name != "" then d.name else t.name,
       args := t.args + d.args)
  }

  function RegisterTool(s: State, d: ToolDelta): (r: State)
    ensures IndexOf(d) in r.tools
  {
    var idx := IndexOf(d);
    if idx in s.tools then s.(tools := s.tools[idx := Extend(s.tools[idx], d)])
    else s.(tools := s.tools[idx := Tool(s.nextIndex, NoID, d.id, d.name, false, d.args)],
            nextIndex := s.nextIndex + 1, toolOrder := s.toolOrder + [idx])
  }

  predicate CanStart(t: Tool) { !t.added && t.name != "" && t.callID != "" }

  /** The tool record after startTool. */
  function Announced(e: Env, t: Tool, idx: int): Tool {
    if CanStart(t) then t.(itemID := ToolItemID(e, KindOf(e, t.name), idx), added := true) else t
  }

  /** What startTool sends: the item, and for a function the arguments collected so far. */
  function Announcement(e: Env, t: Tool, idx: int): seq<Body> {
    if !CanStart(t) then []
    else
      var id := ToolItemID(e, KindOf(e, t.name), idx);
      [ItemAdded(t.outputIndex, ToolCallItem(e, id, InProgress, t.callID, t.name, ""))]
      + if t.args != "" && KindOf(e, t.name) == Function then [ArgsDelta(t.outputIndex, id, t.args)] else []
  }

  /** What a fragment of an already announced call sends: its arguments, for a function only. */
  function Continuation(e: Env, t: Tool, args: string): seq<Body> {
    if args != "" && t.added && KindOf(e, t.name) == Function then [ArgsDelta(t.outputIndex, t.itemID, args)] else []
  }

  /** A tool fragment once the reasoning and message items are closed. */
  function AppendTool(e: Env, s: State, d: ToolDelta): State {
    var idx := IndexOf(d);
    var s1 := RegisterTool(s, d);
    var t := s1.tools[idx];
    s1.(tools := s1.tools[idx := Announced(e, t, idx)],
        out := EmitAll(e, s1.out, if CanStart(t) then Announcement(e, t, idx) else Continuation(e, t, d.args)))
  }

  function HandleToolCall(e: Env, s: State, d: ToolDelta): State {
    var s0 := FinishText(e, FinishReasoning(e, s));
    if s0.Failed() then s0 else AppendTool(e, s0, d)
  }

  /** One signal; a failed stream takes no more of them. */
  function Apply(e: Env, s: State, sig: Signal): State {
    if s.Failed() then s
    else
      match sig
      case SetUsage(u) => s.(usage := Some(u))
      case SetFinish(r) => s.(finishReason := r)
      case ReasoningPiece(t) => HandleReasoning(e, s, t)
      case TextPiece(t) => HandleText(e, s, t)
      case ToolPiece(d) => HandleToolCall(e, s, d)
  }

  function Feed(e: Env, s: State, sigs: seq<Signal>): State {
    if sigs == [] then s
    else Apply(e, Feed(e, s, sigs[..|sigs| - 1]), sigs[|sigs| - 1])
  }

  /** The closing events of one tool call that is announced. */
  function ToolClosing(e: Env, t: Tool): seq<Body> {
    (match KindOf(e, t.name)
     case Custom =>
       var input := UnwrapCustomToolInput(e.codec, t.args);
       (if input != "" then [CustomDelta(t.outputIndex, t.itemID, input)] else [])
           + [CustomDone(t.outputIndex, t.itemID, input)]
     case Function => [ArgsDone(t.outputIndex, t.itemID, t.args)]
     case _ => [])
    + [ItemDone(t.outputIndex, ToolDone(e, t))]
  }

  function ToolDone(e: Env, t: Tool): Item {
    ToolCallItem(e, t.itemID, Completed, t.callID, t.name, t.args)
  }

  /** A tool call without an id is given a synthetic one before it is closed. */
  function NameCall(e: Env, t: Tool, idx: int): Tool {
    if t.callID == "" then t.(callID := SyntheticCallID(e, idx)) else t
  }

  /**
   One turn of finish's loop, and whether it returned. A write failure in the closing events does not return:
   the next turn still looks at its tool before it notices.
   */
  function FinishTool(e: Env, s: State, idx: int): (r: (State, bool))
    requires idx in s.tools
    ensures r.0.tools.Keys == s.tools.Keys && r.0.toolOrder == s.toolOrder
  {
    if s.tools[idx].name == "" then (FailConversion(e, s, ToolWithoutName(idx)), true)
    else
      var named := NameCall(e, s.tools[idx], idx);
      var t := Announced(e, named, idx);
      var o := EmitAll(e, s.out, Announcement(e, named, idx));
      var s1 := s.(tools := s.tools[idx := t], out := o);
      if o.err.Some? then (s1, true)
      else (s1.(out := EmitAll(e, o, ToolClosing(e, t)),
                outputs := StoreOutput(s.outputs, t.outputIndex, ToolDone(e, t))), false)
  }

  /** Every tool call seen so far has a record. */
  predicate Keyed(s: State) {
    forall k :: 0 <= k < |s.toolOrder| ==> s.toolOrder[k] in s.tools
  }

  /** finish's loop from call number `k` on, in order of appearance, and whether it returned early. */
  function FinishTools(e: Env, s: State, k: nat): (r: (State, bool))
    requires k <= |s.toolOrder| && Keyed(s)
    ensures r.0.tools.Keys == s.tools.Keys && r.0.toolOrder == s.toolOrder
    decreases |s.toolOrder| - k
  {
    if k == |s.toolOrder| then (s, false)
    else
      var (s1, returned) := FinishTool(e, s, s.toolOrder[k]);
      if returned then (s1, true) else FinishTools(e, s1, k + 1)
  }

  function FinalBody(s: State): Body {
    var (status, reason) := MapFinishReason(s.finishReason);
    var resp := Final(status, reason, s.outputs, if s.usage.None? then None else Some(ToResponseUsage(s.usage.value)));
    if status == Incomplete then IncompleteEvent(resp) else CompletedEvent(resp)
  }

  function Finish(e: Env, s: State): State
    requires Keyed(s)
  {
    var s0 := FinishText(e, FinishReasoning(e, s));
    if s0.Failed() then s0
    else
      var (s1, returned) := FinishTools(e, s0, 0);
      if returned then s1 else s1.(out := Emit(e, s1.out, FinalBody(s1)))
  }

  // ---------- a whole run ----------

  /** Why the read loop was left. */
  datatype Stop = StopCancelled | StopUpstream(message: string) | StopBroken(message: string) | StopEnd(sawDone: bool)

  datatype Intake = Intake(signals: seq<Signal>, stop: Stop)

  function ErrorText(message: string): string {
    if message != "" then message else "upstream returned an error"
  }

  function LineSignals(line: Line): seq<Signal> { if line.Data? then Signals(line.chunk) else [] }

  /** What the read loop takes from the upstream if nothing fails; an exhausted reader is at end of file. */
  function Received(turns: seq<Read>): Intake {
    if turns == [] then Intake([], StopEnd(false))
    else
      var r := turns[0];
      if r.cancelled then Intake([], StopCancelled)
      else if r.line.DoneMarker? then Intake([], StopEnd(true))
      else if r.line.UpstreamError? then Intake([], StopUpstream(ErrorText(r.line.message)))
      else
        match r.error
        case Eof => Intake(LineSignals(r.line), StopEnd(false))
        case Broken(m) => Intake(LineSignals(r.line), StopBroken(m))
        case NoError =>
          var rest := Received(turns[1..]);
          Intake(LineSignals(r.line) + rest.signals, rest.stop)
  }

  datatype StreamResult = StreamResult(usage: Option<Usage>, toolCallIDs: seq<string>, reasoningText: string,
                                       contentText: string)

  datatype RunError =
    | ContextCancelled
    | UpstreamFault(message: string, also: Option<Fault>)
    | ReadFault(message: string, also: Option<Fault>)
    | Converting(fault: Fault)

  datatype Outcome = Outcome(result: StreamResult, error: Option<RunError>)

  /** The non-empty call ids of the first `n` tool calls. */
  function CallIDs(s: State, n: nat): seq<string>
    requires n <= |s.toolOrder| && Keyed(s)
  {
    if n == 0 then []
    else
      var id := s.tools[s.toolOrder[n - 1]].callID;
      CallIDs(s, n - 1) + if id != "" then [id] else []
  }

  function ResultOf(s: State): Outcome
    requires Keyed(s)
  {
    Outcome(StreamResult(s.usage, CallIDs(s, |s.toolOrder|), s.reasoning.text, s.message.text),
            if s.Failed() then Some(Converting(s.out.err.value)) else None)
  }

  /** Only the usage survives a cancelled or broken stream. */
  function BareResult(s: State, error: RunError): Outcome {
    Outcome(StreamResult(s.usage, [], "", ""), Some(error))
  }

  function Opening(e: Env): State {
    INITIAL.(out := EmitAll(e, INITIAL.out, [CreatedEvent, InProgressEvent]))
  }

  /** After the end of the upstream: refuse a stream cut short or without an answer, else close everything. */
  function Epilogue(e: Env, s: State, sawDone: bool): State
    requires Keyed(s)
  {
    if !sawDone && s.finishReason == "" then FailConversion(e, s, ClosedEarly)
    else if |s.reasoning.text| > 0 && |s.message.text| == 0 && |s.tools| == 0 then FailConversion(e, s, ReasoningOnly)
    else Finish(e, s)
  }

  /** The state in which the read loop is left. */
  function AfterReads(e: Env, turns: seq<Read>): State {
    Feed(e, Opening(e), Received(turns).signals)
  }

  lemma {:induction false} FeedKeyed(e: Env, s: State, sigs: seq<Signal>)
    requires Keyed(s)
    ensures Keyed(Feed(e, s, sigs))
  {
    if sigs != [] {
      FeedKeyed(e, s, sigs[..|sigs| - 1]);
      ApplyKeyed(e, Feed(e, s, sigs[..|sigs| - 1]), sigs[|sigs| - 1]);
    }
  }

  lemma ApplyKeyed(e: Env, s: State, sig: Signal)
    requires Keyed(s)
    ensures Keyed(Apply(e, s, sig))
  {
    var s0 := FinishText(e, FinishReasoning(e, s));
    assert s0.tools == s.tools && s0.toolOrder == s.toolOrder;
  }

  /** A whole call of StreamChatToResponses: the final state and what it returns. */
  function Run(e: Env, turns: seq<Read>): (State, Outcome) {
    FeedKeyed(e, Opening(e), Received(turns).signals);
    var s := AfterReads(e, turns);
    if s.Failed() then (s, ResultOf(s))
    else
      match Received(turns).stop
      case StopCancelled => (s, BareResult(s, ContextCancelled))
      case StopUpstream(m) =>
        var s1 := s.(out := Emit(e, s.out, FailedEvent(Upstream(m))));
        (s1, BareResult(s, UpstreamFault(m, s1.out.err)))
      case StopBroken(m) =>
        var s1 := s.(out := Emit(e, s.out, FailedEvent(ReadFailure(m))));
        (s1, BareResult(s, ReadFault(m, s1.out.err)))
      case StopEnd(sawDone) =>
        var s1 := Epilogue(e, s, sawDone);
        EpilogueKeyed(e, s, sawDone);
        (s1, ResultOf(s1))
  }

  lemma EpilogueKeyed(e: Env, s: State, sawDone: bool)
    requires Keyed(s)
    ensures Keyed(Epilogue(e, s, sawDone))
  {
    var s0 := FinishText(e, FinishReasoning(e, s));
    assert s0.tools == s.tools && s0.toolOrder == s.toolOrder;
  }
}
