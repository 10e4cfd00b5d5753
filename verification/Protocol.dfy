/** The Chat and Responses values both converters speak about. (protocol/chat.go, protocol/responses.go) */
module Protocol {
  import opened Common
  import opened Json

  datatype Usage = Usage(
    promptTokens: int, completionTokens: int, totalTokens: int,
    cachedTokens: Option<int>, reasoningTokens: Option<int>)

  datatype ResponseUsage = ResponseUsage(
    inputTokens: int, outputTokens: int, totalTokens: int,
    cachedTokens: Option<int>, reasoningTokens: Option<int>)

  /** A complete Chat tool call. */
  datatype ToolCall = ToolCall(id: string, name: string, arguments: string)

  /** The assistant message of a Chat reply. */
  datatype Reply = Reply(reasoning: string, content: string, refusal: string, toolCalls: seq<ToolCall>)

  datatype Status = InProgress | Completed | Incomplete

  datatype Part = OutputText(text: string) | Refusal(text: string)

  /** Identifiers of output items: the response's base, the item's number where it has one, and a prefix for its
      kind. */
  datatype ItemID =
    | NoID
    | ReasoningID(base: string)
    | MessageID(base: string)
    | FunctionID(base: string, n: int)
    | CustomID(base: string, n: int)
    | SearchID(base: string, n: int)

  /** The identifier as it is written on the wire. */
  function IDText(id: ItemID): string {
    match id
    case NoID => ""
    case ReasoningID(base) => "rs_" + base
    case MessageID(base) => "msg_" + base
    case FunctionID(base, n) => "fc_" + base + "_" + Itoa(n)
    case CustomID(base, n) => "ctc_" + base + "_" + Itoa(n)
    case SearchID(base, n) => "tsc_" + base + "_" + Itoa(n)
  }

  /** A Responses output item. */
  datatype Item =
    | ReasoningItem(id: ItemID, status: Status, summary: seq<string>)
    | MessageItem(id: ItemID, status: Status, content: seq<Part>)
    | FunctionCall(id: ItemID, status: Status, callID: string, name: string, namespace: string, arguments: string)
    | CustomToolCall(id: ItemID, status: Status, callID: string, name: string, namespace: string, input: string)
    | ToolSearchCall(id: ItemID, status: Status, callID: string, execution: string, query: Value)
  {
    predicate IsTool() { FunctionCall? || CustomToolCall? || ToolSearchCall? }
  }

  /** mapFinishReason: the Responses status and the incomplete_details reason ("" when there is none). */
  function MapFinishReason(reason: string): (Status, string) {
    match reason
    case "length" => (Incomplete, "max_output_tokens")
    case "content_filter" => (Incomplete, "content_filter")
    case _ => (Completed, "")
  }

  function ToResponseUsage(u: Usage): ResponseUsage {
    ResponseUsage(u.promptTokens, u.completionTokens, u.totalTokens, u.cachedTokens, u.reasoningTokens)
  }
}
