/**
 A tool call's way to the client and back: from a Chat reply to a Responses item, which the client replays in its next
 request, to the Chat message built from it. (convert/response.go, convert/request.go)
 */
module RoundTrip {
  import opened Common
  import opened Json
  import opened Protocol
  import opened Tools
  import opened Media
  import opened InputSpec
  import Expand
  import Response

  // ---------- replaying ----------

  function PartValue(p: Part): Value {
    match p
    case OutputText(text) => Obj(map["type" := Str("output_text"), "text" := Str(text)])
    case Refusal(text) => Obj(map["type" := Str("refusal"), "refusal" := Str(text)])
  }

  function PartValues(parts: seq<Part>): seq<Value> {
    if parts == [] then [] else [PartValue(parts[0])] + PartValues(parts[1..])
  }

  /** The input item of a client that sends back an output item as it got it. */
  function ReplayItem(item: Item): InputItem {
    match item
    case ReasoningItem(_, _, summary) => ReasoningIn(summary)
    case MessageItem(_, _, content) => MessageIn("assistant", Some(Arr(PartValues(content))))
    case FunctionCall(id, _, callID, name, namespace, arguments) =>
      CallIn(FunctionKind, callID, IDText(id), name, namespace, Some(Str(arguments)), "")
    case CustomToolCall(id, _, callID, name, namespace, input) =>
      CallIn(CustomKind, callID, IDText(id), name, namespace, None, input)
    case ToolSearchCall(id, _, callID, execution, query) =>
      CallIn(SearchKind, callID, IDText(id), "", "", Some(query), "")
  }

  function Replay(output: seq<Item>): (items: seq<InputItem>)
    ensures |items| == |output|
    ensures forall i :: 0 <= i < |output| ==> items[i] == ReplayItem(output[i])
  {
    if output == [] then [] else [ReplayItem(output[0])] + Replay(output[1..])
  }

  /** The call that comes back when call number `i` of a reply is converted and replayed. */
  function Cycled(c: Codec, tools: ToolContext, id: string, call: ToolCall, i: nat): ToolCall {
    CallOfItem(c, ReplayItem(Response.ToolOutput(c, tools, id, call, i)))
  }

  // ---------- one call ----------

  /** The argument text after one cycle, by the kind of tool. */
  function Canonical(c: Codec, kind: Kind, arguments: string): string {
    match kind
    case Custom => WrapCustomToolInput(c, UnwrapCustomToolInput(c, arguments))
    case ToolSearch =>
      var v := NormalizeToolSearchArguments(c, arguments);
      if v.Obj? then c.encode(v) else "{}"
    case _ => arguments
  }

  ghost predicate PrintsEmptyObject(c: Codec) {
    c.encode(Obj(map[])) == "{}"
  }

  /**
   The round trip of every flat name, declared or unknown, under a context that leads back: the same flat name, the same
   call id and, for functions, the same arguments; those of custom and tool_search calls in canonical form. Only a
   tool_search call without an id is given one, its item's.
   */
  lemma CallComesBack(c: Codec, tools: ToolContext, id: string, call: ToolCall, i: nat)
    requires Lawful(c) && Expand.LeadsBack(tools)
    ensures var kind := ResolveTool(call.name, tools).kind;
            var back := Cycled(c, tools, id, call, i);
            && back.name == call.name
            && back.id == (if kind == ToolSearch && call.id == "" then IDText(SearchID(id, i)) else call.id)
            && back.arguments == Canonical(c, kind, call.arguments)
  {
    hide IDText, TrimSpace, UnwrapCustomToolInput, WrapCustomToolInput;
    if call.name in tools { assert Expand.EntryLeadsBack(call.name, tools[call.name]); }
    if ResolveTool(call.name, tools).kind == ToolSearch { SearchTextBack(c, call.arguments); }
  }

  lemma SearchTextBack(c: Codec, arguments: string)
    requires Lawful(c)
    ensures var v := NormalizeToolSearchArguments(c, arguments);
            && (v.Obj? || v == Null)
            && (if v.Obj? then ChatToolArguments(c, Some(v)) == c.encode(v) != ""
                else ChatToolArguments(c, Some(v)) == "")
  {
    hide TrimSpace;
    assert RoundTrips(c, NormalizeToolSearchArguments(c, arguments));
  }

  lemma PrintedIsTrimmed(c: Codec, v: Value)
    requires Lawful(c)
    ensures TrimSpace(c.encode(v)) == c.encode(v) != "" && c.decode(c.encode(v)) == Some(v)
  {
    assert RoundTrips(c, v);
    TrimSpaceOfTrimmed(c.encode(v));
  }

  lemma UnwrapsWhatItWraps(c: Codec, input: string)
    requires Lawful(c)
    ensures UnwrapCustomToolInput(c, WrapCustomToolInput(c, input)) == input
  {
    PrintedIsTrimmed(c, Obj(map["input" := Str(input)]));
  }

  lemma NormalizesPrinted(c: Codec, fields: Fields)
    requires Lawful(c)
    ensures NormalizeToolSearchArguments(c, c.encode(Obj(fields))) == Obj(fields)
  {
    PrintedIsTrimmed(c, Obj(fields));
  }

  /** A second cycle changes nothing. */
  lemma CanonicalIsFixed(c: Codec, kind: Kind, arguments: string)
    requires Lawful(c) && PrintsEmptyObject(c)
    ensures Canonical(c, kind, Canonical(c, kind, arguments)) == Canonical(c, kind, arguments)
  {
    hide UnwrapCustomToolInput, WrapCustomToolInput, NormalizeToolSearchArguments;
    match kind
    case Custom => UnwrapsWhatItWraps(c, UnwrapCustomToolInput(c, arguments));
    case ToolSearch =>
      var v := NormalizeToolSearchArguments(c, arguments);
      NormalizesPrinted(c, map[]);
      if v.Obj? { NormalizesPrinted(c, v.fields); }
    case _ =>
  }

  /** Which argument texts survive a cycle as they are: any function's, a custom tool's if it is printed from an input,
      a tool_search's if it is a printed object. */
  lemma UnchangedExactly(c: Codec, kind: Kind, arguments: string)
    requires Lawful(c) && PrintsEmptyObject(c)
    ensures Canonical(c, kind, arguments) == arguments <==>
            match kind
            case Custom => exists input :: arguments == WrapCustomToolInput(c, input)
            case ToolSearch => exists fields :: arguments == c.encode(Obj(fields))
            case _ => true
  {
    hide UnwrapCustomToolInput, WrapCustomToolInput, NormalizeToolSearchArguments;
    match kind
    case Custom =>
      if input :| arguments == WrapCustomToolInput(c, input) { UnwrapsWhatItWraps(c, input); }
    case ToolSearch =>
      if fields :| arguments == c.encode(Obj(fields)) { NormalizesPrinted(c, fields); }
    case _ =>
  }

  /** A call that came back once comes back the same ever after, whatever response and place it is in. */
  lemma SecondCycleIsIdentity(c: Codec, tools: ToolContext, id: string, call: ToolCall, i: nat, id2: string, j: nat)
    requires Lawful(c) && PrintsEmptyObject(c) && Expand.LeadsBack(tools)
    ensures var back := Cycled(c, tools, id, call, i);
            Cycled(c, tools, id2, back, j) == back
  {
    hide Cycled, Canonical;
    var back := Cycled(c, tools, id, call, i);
    CallComesBack(c, tools, id, call, i);
    CallComesBack(c, tools, id2, back, j);
    CanonicalIsFixed(c, ResolveTool(call.name, tools).kind, call.arguments);
  }

  // ---------- a whole reply ----------

  function CycledCalls(c: Codec, tools: ToolContext, id: string, calls: seq<ToolCall>): (r: seq<ToolCall>)
    ensures |r| == |calls|
    ensures forall i :: 0 <= i < |calls| ==> r[i] == Cycled(c, tools, id, calls[i], i)
  {
    if calls == [] then []
    else
      var n := |calls| - 1;
      CycledCalls(c, tools, id, calls[..n]) + [Cycled(c, tools, id, calls[n], n)]
  }

  /** The messages a replayed reply stands for: its text and its calls, each with the reasoning the cache has for it;
      without one, the replayed summary goes to the first of the two. */
  function TurnMessages(s: Setting, m: Reply, calls: seq<ToolCall>): seq<Msg> {
    var speaks := m.content != "" || m.refusal != "";
    (if speaks then [RegularMsg("assistant", m.content, [], Fallback(LookupContent(s.source, m.content), m.reasoning))]
     else [])
    + (if calls == [] then []
       else [CallsMsg(Fallback(LookupCall(s.source, calls[0].id), if speaks then "" else m.reasoning), calls)])
  }

  lemma PartsComeBack(m: Reply)
    ensures ContentToChat(Some(Arr(PartValues(Response.MessageParts(m))))) == (m.content, [])
  {
    hide PartsToChat, DecodeParts;
    DecodeTwo(m.content, m.refusal);
    ChatTwo(m.content, m.refusal);
  }

  function TwoParts(content: string, refusal: string): seq<InputPart> {
    (if content == "" then [] else [InputPart("output_text", content, None, "", "")])
    + (if refusal == "" then [] else [InputPart("refusal", "", None, "", "")])
  }

  lemma DecodeCons(part: Part, decoded: InputPart, parts: seq<Part>, rest: seq<InputPart>)
    requires DecodePart(PartValue(part)) == Some(decoded) && DecodeParts(PartValues(parts)) == Some(rest)
    ensures DecodeParts(PartValues([part] + parts)) == Some([decoded] + rest)
  {
    hide DecodePart, PartValue;
    assert ([part] + parts)[1..] == parts;
    var vs := PartValues([part] + parts);
    assert vs[0] == PartValue(part) && vs[1..] == PartValues(parts);
  }

  lemma DecodeTwo(content: string, refusal: string)
    ensures DecodeParts(PartValues((if content == "" then [] else [OutputText(content)])
                                   + (if refusal == "" then [] else [Refusal(refusal)])))
         == Some(TwoParts(content, refusal))
  {
    var t, r := OutputText(content), Refusal(refusal);
    var t1, r1 := InputPart("output_text", content, None, "", ""), InputPart("refusal", "", None, "", "");
    assert DecodePart(PartValue(t)) == Some(t1) && DecodePart(PartValue(r)) == Some(r1);
    DecodeCons(t, t1, [], []);
    DecodeCons(r, r1, [], []);
    assert [t] + [] == [t] && [r] + [] == [r] && [t1] + [] == [t1] && [r1] + [] == [r1];
    DecodeCons(t, t1, [r], [r1]);
    assert [] + [r] == [r] && [] + [r1] == [r1];
  }

  lemma ChatTwo(content: string, refusal: string)
    ensures PartsToChat(TwoParts(content, refusal)) == (content, [])
  {
    var r := if refusal == "" then [] else [InputPart("refusal", "", None, "", "")];
    var t := if content == "" then [] else [InputPart("output_text", content, None, "", "")];
    var chat := if content == "" then [] else [TextPart(content)];
    assert PartToChat(InputPart("refusal", "", None, "", "")) == None;
    assert ChatParts(t) == chat;
    if refusal == "" {
      assert t + r == t;
    } else {
      assert (t + r)[..|t|] == t;
    }
    assert ChatParts(t + r) == chat;
    assert JoinedText(chat) == content;
  }

  lemma NoErrors(items: seq<InputItem>)
    requires forall i :: 0 <= i < |items| ==>
               items[i].ReasoningIn? || items[i].CallIn? || (items[i].MessageIn? && items[i].role != "")
    ensures FirstError(items, 0).None? && OutputIDs(items) == {}
  {
    forall i | 0 <= i < |items| ensures ItemError(items[i], i).None? {}
    assert forall c :: c !in OutputIDs(items);
  }

  /** Where the text and the calls of a reply stand in its output. */
  function TextAt(m: Reply): nat { if m.reasoning == "" then 0 else 1 }

  function CallsAt(m: Reply): nat { TextAt(m) + if m.content == "" && m.refusal == "" then 0 else 1 }

  predicate CallAt(c: Codec, items: seq<InputItem>, j: int, call: ToolCall) {
    0 <= j < |items| && items[j].CallIn? && CallOfItem(c, items[j]) == call
  }

  /** The items a reply is replayed as. */
  ghost predicate Replays(c: Codec, items: seq<InputItem>, m: Reply, calls: seq<ToolCall>) {
    && |items| == CallsAt(m) + |calls|
    && (m.reasoning != "" ==> items[0] == ReasoningIn([m.reasoning]))
    && (CallsAt(m) > TextAt(m) ==>
          items[TextAt(m)] == MessageIn("assistant", Some(Arr(PartValues(Response.MessageParts(m))))))
    && (forall i :: 0 <= i < |calls| ==> CallAt(c, items, CallsAt(m) + i, calls[i]))
  }

  lemma ReplayShape(c: Codec, tools: ToolContext, id: string, m: Reply, status: Status)
    ensures Replays(c, Replay(Response.Output(c, tools, id, m, status)), m, CycledCalls(c, tools, id, m.toolCalls))
  {
    hide Response.Output, Response.MessageParts, PartValues, CallAt, CallsAt, TextAt, Replay, CycledCalls;
    ReplayedHeads(c, tools, id, m, status);
    ReplayedCalls(c, tools, id, m, status);
  }

  lemma ReplayedHeads(c: Codec, tools: ToolContext, id: string, m: Reply, status: Status)
    ensures var items := Replay(Response.Output(c, tools, id, m, status));
            && |items| == CallsAt(m) + |m.toolCalls|
            && (m.reasoning != "" ==> items[0] == ReasoningIn([m.reasoning]))
            && (CallsAt(m) > TextAt(m) ==>
                  items[TextAt(m)] == MessageIn("assistant", Some(Arr(PartValues(Response.MessageParts(m))))))
  {
    hide Response.Output, Response.ToolOutput, Response.MessageParts, PartValues, ReplayItem;
    OutputShape(c, tools, id, m, status);
    HeadItems(id, m, status);
  }

  lemma ReplayedCalls(c: Codec, tools: ToolContext, id: string, m: Reply, status: Status)
    ensures var items := Replay(Response.Output(c, tools, id, m, status));
            var calls := CycledCalls(c, tools, id, m.toolCalls);
            forall i :: 0 <= i < |calls| ==> CallAt(c, items, CallsAt(m) + i, calls[i])
  {
    hide Response.Output, Response.ToolOutput, Response.MessageParts, CallAt, Cycled, CallsAt, TextAt, Replay;
    var output := Response.Output(c, tools, id, m, status);
    var calls := CycledCalls(c, tools, id, m.toolCalls);
    OutputShape(c, tools, id, m, status);
    forall i | 0 <= i < |calls| ensures CallAt(c, Replay(output), CallsAt(m) + i, calls[i]) {
      ReplayedCallAt(c, tools, id, m.toolCalls[i], i, output, CallsAt(m) + i);
    }
  }

  lemma HeadItems(id: string, m: Reply, status: Status)
    ensures ReplayItem(ReasoningItem(ReasoningID(id), Completed, [m.reasoning])) == ReasoningIn([m.reasoning])
    ensures ReplayItem(MessageItem(MessageID(id), status, Response.MessageParts(m)))
         == MessageIn("assistant", Some(Arr(PartValues(Response.MessageParts(m)))))
  {
    hide Response.MessageParts, PartValues;
  }

  lemma ReplayedCallAt(c: Codec, tools: ToolContext, id: string, call: ToolCall, i: nat, output: seq<Item>, j: nat)
    requires j < |output| && output[j] == Response.ToolOutput(c, tools, id, call, i)
    ensures CallAt(c, Replay(output), j, Cycled(c, tools, id, call, i))
  {
    hide Response.ToolOutput, CallOfItem, ReplayItem;
    ToolIsCall(c, tools, id, call, i);
    assert Replay(output)[j] == ReplayItem(output[j]);
  }

  lemma OutputShape(c: Codec, tools: ToolContext, id: string, m: Reply, status: Status)
    ensures var output := Response.Output(c, tools, id, m, status);
            && |output| == CallsAt(m) + |m.toolCalls|
            && (m.reasoning != "" ==> output[0] == ReasoningItem(ReasoningID(id), Completed, [m.reasoning]))
            && (CallsAt(m) > TextAt(m) ==>
                  output[TextAt(m)] == MessageItem(MessageID(id), status, Response.MessageParts(m)))
            && (forall i :: 0 <= i < |m.toolCalls| ==>
                  output[CallsAt(m) + i] == Response.ToolOutput(c, tools, id, m.toolCalls[i], i))
  {
    hide Response.ToolOutput, Response.MessageParts, Response.ReasoningOutput, Response.MessageOutput,
         Response.ToolOutputs;
    HeadShape(id, m, status);
    var r, t := Response.ReasoningOutput(id, m), Response.MessageOutput(id, m, status);
    var calls := Response.ToolOutputs(c, tools, id, m.toolCalls);
    assert Response.Output(c, tools, id, m, status) == r + t + calls;
  }

  lemma HeadShape(id: string, m: Reply, status: Status)
    ensures var r, t := Response.ReasoningOutput(id, m), Response.MessageOutput(id, m, status);
            && |r| == TextAt(m) && |r + t| == CallsAt(m)
            && (m.reasoning != "" ==> r == [ReasoningItem(ReasoningID(id), Completed, [m.reasoning])])
            && (CallsAt(m) > TextAt(m) ==> t == [MessageItem(MessageID(id), status, Response.MessageParts(m))])
  {
    hide Response.MessageParts;
  }

  lemma ToolIsCall(c: Codec, tools: ToolContext, id: string, call: ToolCall, i: nat)
    ensures ReplayItem(Response.ToolOutput(c, tools, id, call, i)).CallIn?
  {
  }

  lemma ReplayIsFine(c: Codec, items: seq<InputItem>, m: Reply, calls: seq<ToolCall>)
    requires Replays(c, items, m, calls)
    ensures FirstError(items, 0).None? && OutputIDs(items) == {}
  {
    hide PartValues, Response.MessageParts, CallOfItem;
    forall i | 0 <= i < |items|
      ensures items[i].ReasoningIn? || items[i].CallIn? || (items[i].MessageIn? && items[i].role != "")
    {
      if i >= CallsAt(m) { assert CallAt(c, items, CallsAt(m) + (i - CallsAt(m)), calls[i - CallsAt(m)]); }
    }
    NoErrors(items);
  }

  /** The state after the replayed reasoning and text. */
  function HeadProgress(s: Setting, m: Reply): Progress {
    if m.content != "" || m.refusal != "" then
      START.(out := [RegularMsg("assistant", m.content, [], Fallback(LookupContent(s.source, m.content), m.reasoning))])
    else START.(pending := m.reasoning)
  }

  lemma OneSummary(reasoning: string)
    ensures SummaryText([reasoning]) == reasoning
  {
    assert [reasoning][1..] == [];
    assert reasoning + "" == reasoning;
  }

  lemma HeadsComeBack(s: Setting, items: seq<InputItem>, m: Reply, calls: seq<ToolCall>)
    requires Replays(s.codec, items, m, calls) && OutputIDs(items) == {}
    ensures After(s, items, CallsAt(m)) == HeadProgress(s, m)
  {
    hide ContentToChat, PartValues, Response.MessageParts, SummaryText, OutputIDs;
    var r, h := TextAt(m), CallsAt(m);
    OneSummary(m.reasoning);
    PartsComeBack(m);
    assert After(s, items, 0) == START;
    assert After(s, items, r) == START.(pending := m.reasoning);
    if h > r {
      var p := After(s, items, r);
      assert After(s, items, h) == Step(s, {}, p, items[r]);
      assert p.out + [RegularOfItem(s.source, items[r], p.pending)] == [RegularOfItem(s.source, items[r], p.pending)];
    }
  }

  /** The state after `k` of the replayed calls. */
  function CallsProgress(s: Setting, p: Progress, calls: seq<ToolCall>): Progress {
    if calls == [] then p
    else p.(out := p.out + [CallsMsg(Fallback(LookupCall(s.source, calls[0].id), p.pending), calls)], pending := "",
            joining := true)
  }

  lemma OneMoreCall(s: Setting, p: Progress, it: InputItem, calls: seq<ToolCall>, call: ToolCall)
    requires it.CallIn? && CallOfItem(s.codec, it) == call && !p.joining
    ensures Step(s, {}, CallsProgress(s, p, calls), it) == CallsProgress(s, p, calls + [call])
  {
    hide CallOfItem;
    var q := CallsProgress(s, p, calls);
    if calls == [] {
      assert calls + [call] == [call];
    } else {
      assert (calls + [call])[0] == calls[0];
      var reasoning := Fallback(LookupCall(s.source, calls[0].id), p.pending);
      assert q.out[|q.out| - 1 := CallsMsg(reasoning, calls + [call])] == p.out + [CallsMsg(reasoning, calls + [call])];
    }
  }

  lemma {:induction false} CallsComeBack(s: Setting, items: seq<InputItem>, m: Reply, calls: seq<ToolCall>, k: nat)
    requires Replays(s.codec, items, m, calls) && k <= |calls| && OutputIDs(items) == {}
    requires After(s, items, CallsAt(m)) == HeadProgress(s, m)
    ensures After(s, items, CallsAt(m) + k) == CallsProgress(s, HeadProgress(s, m), calls[..k])
  {
    hide CallOfItem, OutputIDs, Step, CallsProgress, PartValues, Response.MessageParts, Fallback, LookupContent;
    var p, h := HeadProgress(s, m), CallsAt(m);
    if k == 0 {
      NoCalls(s, p);
    } else {
      CallsComeBack(s, items, m, calls, k - 1);
      assert CallAt(s.codec, items, h + (k - 1), calls[k - 1]);
      OneMoreCall(s, p, items[h + (k - 1)], calls[..k - 1], calls[k - 1]);
      assert calls[..k] == calls[..k - 1] + [calls[k - 1]];
    }
  }

  lemma NoCalls(s: Setting, p: Progress)
    ensures CallsProgress(s, p, []) == p
  {
  }

  /** Any replay of a reply is parsed to its text and one message with all its calls in order. */
  lemma ReplaysParse(s: Setting, items: seq<InputItem>, m: Reply, calls: seq<ToolCall>)
    requires Replays(s.codec, items, m, calls)
    ensures Parsed(s, ItemsInput(items)) == Ok(TurnMessages(s, m, calls))
  {
    hide After, OutputIDs, HeadProgress, CallsProgress, TurnMessages, Replays;
    ReplayEndsIn(s, items, m, calls);
    QuietEnd(s, m, calls);
    TurnIsHeadAndCalls(s, m, calls);
  }

  /**
   A whole reply comes back: converted to Responses output, replayed item by item and parsed again, it is the assistant
   text with the reply's reasoning and one message with all its calls in order, each as its own round trip leaves it.
   */
  lemma ReplyComesBack(s: Setting, tools: ToolContext, id: string, m: Reply, status: Status)
    ensures Parsed(s, ItemsInput(Replay(Response.Output(s.codec, tools, id, m, status))))
         == Ok(TurnMessages(s, m, CycledCalls(s.codec, tools, id, m.toolCalls)))
  {
    hide Response.Output, Parsed, TurnMessages, Replays, CycledCalls, Replay;
    ReplayShape(s.codec, tools, id, m, status);
    ReplaysParse(s, Replay(Response.Output(s.codec, tools, id, m, status)), m,
                 CycledCalls(s.codec, tools, id, m.toolCalls));
  }

  lemma ReplayEndsIn(s: Setting, items: seq<InputItem>, m: Reply, calls: seq<ToolCall>)
    requires Replays(s.codec, items, m, calls)
    ensures FirstError(items, 0).None? && After(s, items, |items|) == CallsProgress(s, HeadProgress(s, m), calls)
  {
    hide After, OutputIDs, HeadProgress, CallsProgress, Replays;
    ReplayIsFine(s.codec, items, m, calls);
    HeadsComeBack(s, items, m, calls);
    CallsComeBack(s, items, m, calls, |calls|);
    ReplayLength(s.codec, items, m, calls);
    assert calls[..|calls|] == calls;
  }

  lemma ReplayLength(c: Codec, items: seq<InputItem>, m: Reply, calls: seq<ToolCall>)
    requires Replays(c, items, m, calls)
    ensures |items| == CallsAt(m) + |calls|
  {
  }

  lemma QuietEnd(s: Setting, m: Reply, calls: seq<ToolCall>)
    ensures var p := CallsProgress(s, HeadProgress(s, m), calls); FlushDeferred(FlushMedia(p)).out == p.out
  {
    hide Fallback, LookupContent, LookupCall;
    var p := CallsProgress(s, HeadProgress(s, m), calls);
    assert p.out + [] == p.out;
  }

  lemma TurnIsHeadAndCalls(s: Setting, m: Reply, calls: seq<ToolCall>)
    ensures TurnMessages(s, m, calls) == CallsProgress(s, HeadProgress(s, m), calls).out
  {
    hide Fallback, LookupContent, LookupCall;
    var head := if m.content != "" || m.refusal != "" then
      [RegularMsg("assistant", m.content, [], Fallback(LookupContent(s.source, m.content), m.reasoning))] else [];
    assert HeadProgress(s, m).out == head && head + [] == head;
  }
}
