/** The non-streaming conversion of a complete Chat reply. (convert/response.go) */
module Response {
  import opened Common
  import opened Json
  import opened Protocol
  import opened Tools

  datatype ChatReply = ChatReply(id: string, choices: seq<(Reply, string)>, usage: Option<Usage>)

  datatype ResponseBody = ResponseBody(
    id: string, status: Status, incompleteReason: string, output: seq<Item>, usage: Option<ResponseUsage>)

  const CHAT_ID_PREFIX := "chatcmpl-"

  function StripPrefix(id: string): string {
    if |id| > |CHAT_ID_PREFIX| && id[..|CHAT_ID_PREFIX|] == CHAT_ID_PREFIX then id[|CHAT_ID_PREFIX|..] else id
  }

  /** The first choice's message and finish reason; an empty message when there is no choice. */
  function FirstChoice(reply: ChatReply): (Reply, string) {
    if reply.choices == [] then (Reply("", "", "", []), "") else reply.choices[0]
  }

  function ReasoningOutput(id: string, m: Reply): seq<Item> {
    if m.reasoning == "" then [] else [ReasoningItem(ReasoningID(id), Completed, [m.reasoning])]
  }

  function MessageParts(m: Reply): seq<Part> {
    (if m.content == "" then [] else [OutputText(m.content)]) + (if m.refusal == "" then [] else [Refusal(m.refusal)])
  }

  function MessageOutput(id: string, m: Reply, status: Status): seq<Item> {
    if m.content == "" && m.refusal == "" then []
    else
      [MessageItem(MessageID(id), status, MessageParts(m))]
  }

  /** The output item of tool call number `i`, in the shape of the Responses tool its flat name stands for. */
  function ToolOutput(c: Codec, tools: ToolContext, id: string, call: ToolCall, i: nat): Item {
    var ref := ResolveTool(call.name, tools);
    match ref.kind
    case Custom =>
      CustomToolCall(CustomID(id, i), Completed, call.id, ref.name, ref.namespace,
                     UnwrapCustomToolInput(c, call.arguments))
    case ToolSearch =>
      ToolSearchCall(SearchID(id, i), Completed, call.id, ref.execution,
                     NormalizeToolSearchArguments(c, call.arguments))
    case _ =>
      FunctionCall(FunctionID(id, i), Completed, call.id, ref.name, ref.namespace, call.arguments)
  }

  function ToolOutputs(c: Codec, tools: ToolContext, id: string, calls: seq<ToolCall>): (items: seq<Item>)
    ensures |items| == |calls|
    ensures forall i :: 0 <= i < |calls| ==> items[i] == ToolOutput(c, tools, id, calls[i], i)
  {
    if calls == [] then []
    else
      var last := |calls| - 1;
      ToolOutputs(c, tools, id, calls[..last]) + [ToolOutput(c, tools, id, calls[last], last)]
  }

  /** The output list of a whole reply: reasoning, then the message, then the tool calls in order. */
  function Output(c: Codec, tools: ToolContext, id: string, m: Reply, status: Status): seq<Item> {
    ReasoningOutput(id, m) + MessageOutput(id, m, status) + ToolOutputs(c, tools, id, m.toolCalls)
  }

  // ---------- what an answer says ----------

  /** A length limit or a content filter makes an answer incomplete, and nothing else does. */
  predicate SaysStatus(status: Status, incompleteReason: string, finishReason: string) {
    && (status == Incomplete <==> finishReason == "length" || finishReason == "content_filter")
    && status != InProgress
    && (finishReason == "length" ==> incompleteReason == "max_output_tokens")
    && (finishReason == "content_filter" ==> incompleteReason == "content_filter")
    && (status == Completed ==> incompleteReason == "")
  }

  predicate SaysUsage(r: Option<ResponseUsage>, u: Option<Usage>) {
    && (r.Some? <==> u.Some?)
    && (r.Some? ==>
          && r.value.inputTokens == u.value.promptTokens && r.value.outputTokens == u.value.completionTokens
          && r.value.totalTokens == u.value.totalTokens && r.value.cachedTokens == u.value.cachedTokens
          && r.value.reasoningTokens == u.value.reasoningTokens)
  }

  /** The ids of an answer come from the upstream's, without its prefix if something follows it. */
  ghost predicate BaseOf(upstreamID: string, base: string) {
    || (base != "" && upstreamID == "chatcmpl-" + base)
    || (upstreamID == base && forall rest: string :: rest != "" ==> upstreamID != "chatcmpl-" + rest)
  }

  /** The item a tool call is shown as, by the kind its flat name has, under its own name and namespace. */
  ghost predicate ShowsCall(c: Codec, tools: ToolContext, id: string, call: ToolCall, i: nat, item: Item) {
    if call.name !in tools then
      item == FunctionCall(FunctionID(id, i), Completed, call.id, call.name, "", call.arguments)
    else
      var spec := tools[call.name];
      match spec.kind
      case Custom =>
        && item.CustomToolCall? && HoldsInput(c, call.arguments, item.input)
        && item == CustomToolCall(CustomID(id, i), Completed, call.id, spec.name, spec.namespace, item.input)
      case ToolSearch =>
        && item.ToolSearchCall? && HoldsQuery(c, call.arguments, item.query)
        && item == ToolSearchCall(SearchID(id, i), Completed, call.id, spec.execution, item.query)
      case _ => item == FunctionCall(FunctionID(id, i), Completed, call.id, spec.name, spec.namespace, call.arguments)
  }

  /** The content of a message item: its text if there is any, then its refusal if there is one. */
  predicate ShowsText(m: Reply, content: seq<Part>) {
    if m.content == "" then content == [Refusal(m.refusal)]
    else if m.refusal == "" then content == [OutputText(m.content)]
    else content == [OutputText(m.content), Refusal(m.refusal)]
  }

  /** An output list: a reasoning item if there is reasoning, a message item if there is text or a refusal, and one item
      for each call, in order. */
  ghost predicate Shows(c: Codec, tools: ToolContext, id: string, m: Reply, status: Status, output: seq<Item>) {
    var r := if m.reasoning == "" then 0 else 1;
    var h := if m.content == "" && m.refusal == "" then r else r + 1;
    && |output| == h + |m.toolCalls|
    && (m.reasoning != "" ==> output[0] == ReasoningItem(ReasoningID(id), Completed, [m.reasoning]))
    && (h > r ==> output[r].MessageItem? && output[r].id == MessageID(id) && output[r].status == status
                  && ShowsText(m, output[r].content))
    && forall i :: 0 <= i < |m.toolCalls| ==> ShowsCall(c, tools, id, m.toolCalls[i], i, output[h + i])
  }

  lemma ToolShows(c: Codec, tools: ToolContext, id: string, call: ToolCall, i: nat)
    ensures ShowsCall(c, tools, id, call, i, ToolOutput(c, tools, id, call, i))
  {
    hide HoldsInput, HoldsQuery, UnwrapCustomToolInput, NormalizeToolSearchArguments;
    UnwrapIs(c, call.arguments);
    NormalizeIs(c, call.arguments);
  }

  lemma OutputShows(c: Codec, tools: ToolContext, id: string, m: Reply, status: Status)
    ensures Shows(c, tools, id, m, status, Output(c, tools, id, m, status))
  {
    hide ToolOutput, ShowsCall, ToolOutputs, ReasoningOutput, MessageOutput, HeadsShown, Shows;
    var heads := ReasoningOutput(id, m) + MessageOutput(id, m, status);
    var calls := ToolOutputs(c, tools, id, m.toolCalls);
    HeadsShow(id, m, status);
    forall i | 0 <= i < |m.toolCalls| ensures ShowsCall(c, tools, id, m.toolCalls[i], i, calls[i]) {
      ToolShows(c, tools, id, m.toolCalls[i], i);
    }
    ShownTogether(c, tools, id, m, status, heads, calls);
  }

  lemma ShownTogether(c: Codec, tools: ToolContext, id: string, m: Reply, status: Status, heads: seq<Item>,
                      calls: seq<Item>)
    requires HeadsShown(id, m, status, heads) && |calls| == |m.toolCalls|
    requires forall i :: 0 <= i < |calls| ==> ShowsCall(c, tools, id, m.toolCalls[i], i, calls[i])
    ensures Shows(c, tools, id, m, status, heads + calls)
  {
    hide ShowsCall, ShowsText;
    forall i | 0 <= i < |calls| ensures (heads + calls)[|heads| + i] == calls[i] {}
  }

  predicate HeadsShown(id: string, m: Reply, status: Status, heads: seq<Item>) {
    var r := if m.reasoning == "" then 0 else 1;
    var h := if m.content == "" && m.refusal == "" then r else r + 1;
    && |heads| == h
    && (m.reasoning != "" ==> heads[0] == ReasoningItem(ReasoningID(id), Completed, [m.reasoning]))
    && (h > r ==> heads[r].MessageItem? && heads[r].id == MessageID(id) && heads[r].status == status
                  && ShowsText(m, heads[r].content))
  }

  lemma HeadsShow(id: string, m: Reply, status: Status)
    ensures HeadsShown(id, m, status, ReasoningOutput(id, m) + MessageOutput(id, m, status))
  {
  }

  lemma StripIs(id: string)
    ensures BaseOf(id, StripPrefix(id))
  {
    var n := |CHAT_ID_PREFIX|;
    if |id| > n && id[..n] == CHAT_ID_PREFIX {
      assert id == CHAT_ID_PREFIX + id[n..];
    } else {
      forall rest: string | rest != "" ensures id != CHAT_ID_PREFIX + rest {
        assert (CHAT_ID_PREFIX + rest)[..n] == CHAT_ID_PREFIX;
      }
    }
  }

  /** The items of an output list have different ids on the wire. */
  lemma IDsDiffer(c: Codec, tools: ToolContext, id: string, m: Reply, status: Status, i: nat, j: nat)
    requires var output := Output(c, tools, id, m, status); i < j < |output|
    ensures var output := Output(c, tools, id, m, status); IDText(output[i].id) != IDText(output[j].id)
  {
    hide Output, Shows;
    OutputShows(c, tools, id, m, status);
    ShownIDsDiffer(c, tools, id, m, status, Output(c, tools, id, m, status), i, j);
  }

  lemma ShownIDsDiffer(c: Codec, tools: ToolContext, id: string, m: Reply, status: Status, output: seq<Item>, i: nat,
                       j: nat)
    requires Shows(c, tools, id, m, status, output) && i < j < |output|
    ensures IDText(output[i].id) != IDText(output[j].id)
  {
    hide Itoa, ShowsCall, ShowsText, IDText;
    var r := if m.reasoning == "" then 0 else 1;
    var h := if m.content == "" && m.refusal == "" then r else r + 1;
    if j >= h {
      CallID(c, tools, id, m.toolCalls[j - h], j - h, output[j]);
      if i >= h {
        CallID(c, tools, id, m.toolCalls[i - h], i - h, output[i]);
        NumbersDiffer(id, i - h, j - h, output[i].id, output[j].id);
      } else {
        HeadDiffers(id, output[i].id, j - h, output[j].id);
      }
    } else {
      HeadsDiffer(id);
    }
  }

  lemma HeadsDiffer(id: string)
    ensures IDText(ReasoningID(id)) != IDText(MessageID(id))
  {
    assert IDText(ReasoningID(id))[0] == 'r' && IDText(MessageID(id))[0] == 'm';
  }

  predicate IsCallID(item: ItemID, id: string, i: nat) {
    item in {FunctionID(id, i), CustomID(id, i), SearchID(id, i)}
  }

  lemma CallID(c: Codec, tools: ToolContext, id: string, call: ToolCall, i: nat, item: Item)
    requires ShowsCall(c, tools, id, call, i, item)
    ensures IsCallID(item.id, id, i)
  {
    hide HoldsInput, HoldsQuery;
  }

  lemma HeadDiffers(id: string, head: ItemID, j: nat, call: ItemID)
    requires head in {ReasoningID(id), MessageID(id)} && IsCallID(call, id, j)
    ensures IDText(head) != IDText(call)
  {
    hide Itoa;
    assert IDText(head)[0] in {'r', 'm'} && IDText(call)[0] in {'f', 'c', 't'};
  }

  lemma NumbersDiffer(id: string, i: nat, j: nat, a: ItemID, b: ItemID)
    requires IsCallID(a, id, i) && IsCallID(b, id, j) && i != j
    ensures IDText(a) != IDText(b)
  {
    hide Itoa;
    var s, t := IDText(a), IDText(b);
    if s == t {
      assert s[0] == t[0];
      var front := (if a.FunctionID? then "fc_" else if a.CustomID? then "ctc_" else "tsc_") + id + "_";
      assert s == front + Itoa(i) && t == front + Itoa(j);
      assert s[|front|..] == Itoa(i) && t[|front|..] == Itoa(j);
      ItoaDiffers(i, j);
    }
  }

  lemma ItoaDiffers(i: nat, j: nat)
    requires Itoa(i) == Itoa(j)
    ensures i == j
  {
    hide Digits;
    DigitsDiffer(i, j);
  }

  method ChatToResponses(c: Codec, reply: ChatReply, tools: ToolContext) returns (resp: ResponseBody)
    ensures var m := if reply.choices == [] then (Reply("", "", "", []), "") else reply.choices[0];
            && SaysStatus(resp.status, resp.incompleteReason, m.1)
            && Shows(c, tools, StripPrefix(reply.id), m.0, resp.status, resp.output)
            && resp.output == Output(c, tools, StripPrefix(reply.id), m.0, resp.status)
    ensures BaseOf(reply.id, StripPrefix(reply.id)) && resp.id == "resp_" + StripPrefix(reply.id)
    ensures SaysUsage(resp.usage, reply.usage)
  {
    hide StripPrefix, BaseOf, Shows, ToolOutputs, ReasoningOutput, MessageOutput;
    var id := StripPrefix(reply.id);
    var m, finishReason := Reply("", "", "", []), "";
    if |reply.choices| > 0 {
      m, finishReason := reply.choices[0].0, reply.choices[0].1;
    }
    var (status, incompleteReason) := MapFinishReason(finishReason);
    var msgStatus := Completed;
    if status == Incomplete {
      msgStatus := Incomplete;
    }
    var output := TextItems(id, m, msgStatus);
    output := AppendToolCalls(c, tools, id, m.toolCalls, output);
    OutputShows(c, tools, id, m, msgStatus);
    StripIs(reply.id);
    resp := ResponseBody("resp_" + id, status, incompleteReason, output,
                         if reply.usage.None? then None else Some(ToResponseUsage(reply.usage.value)));
  }

  method TextItems(id: string, m: Reply, msgStatus: Status) returns (output: seq<Item>)
    ensures output == ReasoningOutput(id, m) + MessageOutput(id, m, msgStatus)
  {
    output := [];
    if m.reasoning != "" {
      output := output + [ReasoningItem(ReasoningID(id), Completed, [m.reasoning])];
    }
    assert output == ReasoningOutput(id, m);
    if m.content != "" || m.refusal != "" {
      var content: seq<Part> := [];
      if m.content != "" {
        content := content + [OutputText(m.content)];
      }
      if m.refusal != "" {
        content := content + [Refusal(m.refusal)];
      }
      assert content == MessageParts(m);
      output := output + [MessageItem(MessageID(id), msgStatus, content)];
    }
  }

  method ToolItem(c: Codec, tools: ToolContext, id: string, call: ToolCall, i: nat) returns (item: Item)
    ensures item == ToolOutput(c, tools, id, call, i)
  {
    hide ResolveTool, UnwrapCustomToolInput, NormalizeToolSearchArguments;
    var ref := ResolveTool(call.name, tools);
    if ref.kind == Custom {
      var input := UnwrapCustomToolInput(c, call.arguments);
      return CustomToolCall(CustomID(id, i), Completed, call.id, ref.name, ref.namespace, input);
    }
    if ref.kind == ToolSearch {
      return ToolSearchCall(SearchID(id, i), Completed, call.id, ref.execution,
                            NormalizeToolSearchArguments(c, call.arguments));
    }
    return FunctionCall(FunctionID(id, i), Completed, call.id, ref.name, ref.namespace, call.arguments);
  }

  method AppendToolCalls(c: Codec, tools: ToolContext, id: string, calls: seq<ToolCall>, before: seq<Item>)
    returns (output: seq<Item>)
    ensures output == before + ToolOutputs(c, tools, id, calls)
  {
    hide ToolOutput;
    output := before;
    for i := 0 to |calls|
      invariant output == before + ToolOutputs(c, tools, id, calls[..i])
    {
      assert calls[..i + 1][..i] == calls[..i];
      var item := ToolItem(c, tools, id, calls[i], i);
      output := output + [item];
    }
    assert calls[..|calls|] == calls;
  }
}
