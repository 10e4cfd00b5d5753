/**
 Turning a Responses input history into Chat messages, as a machine on values: what each input item does to the
 messages built so far. (convert/request.go parseInput and the helpers it calls)
 */
module InputSpec {
  import opened Common
  import opened Json
  import opened Protocol
  import opened Tools
  import opened Media

  // ---------- content ----------

  /** One entry of a Responses content array. */
  datatype InputPart = InputPart(kind: string, text: string, imageURL: Option<Value>, fileID: string, detail: string)

  /** A text field of a decoded object: absent and null give "", another type is an error. */
  function FieldText(fields: Fields, key: string): Option<string> {
    if key !in fields then Some("")
    else
      match fields[key]
      case Str(s) => Some(s)
      case Null => Some("")
      case _ => None
  }

  function DecodePart(v: Value): Option<InputPart> {
    match v
    case Null => Some(InputPart("", "", None, "", ""))
    case Obj(f) =>
      var kind, text, fileID, detail := FieldText(f, "type"), FieldText(f, "text"), FieldText(f, "file_id"),
          FieldText(f, "detail");
      if kind.None? || text.None? || fileID.None? || detail.None? then None
      else
        Some(InputPart(kind.value, text.value, if "image_url" in f then Some(f["image_url"]) else None, fileID.value,
                       detail.value))
    case _ => None
  }

  function DecodeParts(items: seq<Value>): Option<seq<InputPart>> {
    if items == [] then Some([])
    else
      match (DecodePart(items[0]), DecodeParts(items[1..]))
      case (Some(p), Some(rest)) => Some([p] + rest)
      case _ => None
  }

  function ImageToChat(raw: Option<Value>, fileID: string, detail: string): Option<ChatPart> {
    var d := NormalizeDetail(detail);
    var image :=
      match raw
      case Some(Str(s)) => ImagePart(s, fileID, d)
      case Some(Obj(f)) =>
        var url, file, det := FieldText(f, "url"), FieldText(f, "file_id"), FieldText(f, "detail");
        if url.None? || file.None? || det.None? then ImagePart("", fileID, d)
        else
          ImagePart(url.value, if fileID == "" then file.value else fileID,
                    if d == "" then NormalizeDetail(det.value) else d)
      case _ => ImagePart("", fileID, d);
    if TrimSpace(image.url) == "" && TrimSpace(image.fileID) == "" then None else Some(image)
  }

  predicate IsTextKind(kind: string) { kind in ["", "input_text", "output_text", "text"] }

  predicate IsImageKind(kind: string) { kind in ["input_image", "image_url"] }

  /** The Chat part an input part turns into, if any. */
  function PartToChat(p: InputPart): Option<ChatPart> {
    if IsTextKind(p.kind) then if p.text == "" then None else Some(TextPart(p.text))
    else if IsImageKind(p.kind) then ImageToChat(p.imageURL, p.fileID, p.detail)
    else None
  }

  function ChatParts(input: seq<InputPart>): seq<ChatPart> {
    if input == [] then []
    else
      var n := |input| - 1;
      ChatParts(input[..n]) + match PartToChat(input[n]) case Some(p) => [p] case None => []
  }

  /** The text parts joined. */
  function JoinedText(parts: seq<ChatPart>): string {
    if parts == [] then ""
    else
      var n := |parts| - 1;
      JoinedText(parts[..n]) + if parts[n].TextPart? then parts[n].text else ""
  }

  predicate AnyImage(parts: seq<ChatPart>) { exists i :: 0 <= i < |parts| && parts[i].ImagePart? }

  /** responsesPartsToChat: the joined text, and the parts themselves when there is an image among them. */
  function PartsToChat(input: seq<InputPart>): (string, seq<ChatPart>) {
    var parts := ChatParts(input);
    (JoinedText(parts), if AnyImage(parts) then parts else [])
  }

  function ContentToChat(raw: Option<Value>): (string, seq<ChatPart>) {
    match raw
    case None => ("", [])
    case Some(Str(s)) => (s, [])
    case Some(Arr(items)) =>
      (match DecodeParts(items)
       case Some(parts) => PartsToChat(parts)
       case None => ("", []))
    case _ => ("", [])
  }

  function AllTexts(parts: seq<InputPart>): string {
    if parts == [] then "" else parts[0].text + AllTexts(parts[1..])
  }

  function ExtractText(raw: Option<Value>): string {
    match raw
    case Some(Str(s)) => s
    case Some(Arr(items)) =>
      (match DecodeParts(items)
       case Some(parts) => AllTexts(parts)
       case None => "")
    case _ => ""
  }

  // ---------- input items ----------

  datatype CallKind = FunctionKind | CustomKind | SearchKind

  datatype SearchInfo = SearchInfo(id: string, execution: string, status: string, tools: Value)

  datatype InputItem =
    | CallIn(kind: CallKind, callID: string, id: string, name: string, namespace: string, arguments: Option<Value>,
             input: string)
    | OutputIn(callID: string, output: Option<Value>, search: Option<SearchInfo>)
    | ReasoningIn(summary: seq<string>)
    | DeclarationsIn
    | PartIn(role: string, part: InputPart)
    | MessageIn(role: string, content: Option<Value>)
    | UnknownIn(itemType: string)

  /** What parseInput decodes its argument to. */
  datatype Input = Absent | TextInput(text: string) | ItemsInput(items: seq<InputItem>) | Undecodable

  datatype ParseError = NotInput | MissingRole(index: nat) | Unsupported(itemType: string, index: nat)

  /** Where reasoning of earlier turns is looked up; NoSource when there is none. */
  datatype Source = NoSource | Source(byCallID: string -> string, byContent: string -> string)

  /** A Chat message, by how it came about. */
  datatype Msg =
    | CallsMsg(reasoning: string, calls: seq<ToolCall>)
    | ResultMsg(callID: string, content: string)
    | MediaMsg(parts: seq<ChatPart>)
    | RegularMsg(role: string, content: string, parts: seq<ChatPart>, reasoning: string)
  {
    /** Assistant tool calls and their results. */
    predicate IsTraffic() { CallsMsg? || ResultMsg? }
  }

  datatype Setting = Setting(codec: Codec, source: Source)

  function MapRole(role: string): string { if role == "developer" then "user" else role }

  function SummaryText(summary: seq<string>): string {
    if summary == [] then "" else summary[0] + SummaryText(summary[1..])
  }

  function LookupCall(s: Source, callID: string): string { if s.NoSource? then "" else s.byCallID(callID) }

  function LookupContent(s: Source, content: string): string {
    if s.NoSource? || content == "" then "" else s.byContent(content)
  }

  function Fallback(found: string, pending: string): string { if found == "" then pending else found }

  /** The Chat tool call an item replays. */
  function CallOfItem(c: Codec, it: InputItem): ToolCall
    requires it.CallIn?
  {
    var args := ChatToolArguments(c, it.arguments);
    match it.kind
    case FunctionKind => ToolCall(it.callID, FlatName(it), args)
    case CustomKind => ToolCall(it.callID, FlatName(it), WrapCustomToolInput(c, it.input))
    case SearchKind =>
      ToolCall(if it.callID == "" then it.id else it.callID, "tool_search", if args == "" then "{}" else args)
  }

  function FlatName(it: InputItem): string
    requires it.CallIn?
  {
    if it.namespace != "" then JoinToolName(it.namespace, it.name) else it.name
  }

  /** tool_search results are replayed as the JSON text of the whole item; empty fields are left out. */
  function SearchContent(c: Codec, callID: string, info: SearchInfo, output: Option<Value>): string {
    c.encode(Obj(SearchObject(callID, info, output)))
  }

  function SearchObject(callID: string, info: SearchInfo, output: Option<Value>): Fields {
    map["type" := Str("tool_search_output"), "call_id" := Str(callID), "tools" := info.tools]
    + (if info.id == "" then map[] else map["id" := Str(info.id)])
    + (if info.execution == "" then map[] else map["execution" := Str(info.execution)])
    + (if info.status == "" then map[] else map["status" := Str(info.status)])
    + (if output.None? then map[] else map["output" := output.value])
  }

  function ResultOfItem(c: Codec, it: InputItem): Msg
    requires it.OutputIn?
  {
    var plan := PlanToolOutputMedia(c, it.output);
    var text := if plan.Some? then plan.value.content else ExtractText(it.output);
    var cleaned := if plan.Some? then Some(plan.value.output) else None;
    ResultMsg(it.callID, if it.search.Some? then SearchContent(c, it.callID, it.search.value, cleaned) else text)
  }

  function MediaLabel(callID: string): ChatPart { TextPart("[apid: media output of tool call " + callID + "]") }

  /** The labelled images of a tool output. */
  function MediaOfItem(c: Codec, it: InputItem): seq<ChatPart>
    requires it.OutputIn?
  {
    var plan := PlanToolOutputMedia(c, it.output);
    if plan.None? || plan.value.media == [] then [] else [MediaLabel(it.callID)] + plan.value.media
  }

  predicate IsRegular(it: InputItem) { it.PartIn? || it.MessageIn? }

  predicate IsAssistant(it: InputItem) { it.MessageIn? && MapRole(it.role) == "assistant" }

  /** The message a regular item stands for, with the reasoning `pending` when it is the assistant's. */
  function RegularOfItem(s: Source, it: InputItem, pending: string): Msg
    requires IsRegular(it)
  {
    if it.PartIn? then
      var (content, parts) := PartsToChat([it.part]);
      RegularMsg(if MapRole(it.role) == "" then "user" else MapRole(it.role), content, parts, "")
    else
      var (content, parts) := ContentToChat(it.content);
      RegularMsg(MapRole(it.role), content, parts,
                 if IsAssistant(it) then Fallback(LookupContent(s, content), pending) else "")
  }

  // ---------- the machine ----------

  /** The messages so far and what is held back: `joining` says the last message is taking more calls. */
  datatype Progress = Progress(
    out: seq<Msg>, pending: string, joining: bool, media: seq<ChatPart>, awaiting: set<string>, deferred: seq<Msg>)

  const START := Progress([], "", false, [], {}, [])

  function FlushMedia(p: Progress): Progress {
    if p.media == [] then p else p.(out := p.out + [MediaMsg(p.media)], media := [])
  }

  function FlushDeferred(p: Progress): Progress {
    var q := FlushMedia(p);
    q.(out := q.out + q.deferred, deferred := [])
  }

  function AppendRegular(p: Progress, msg: Msg): Progress {
    if p.awaiting != {} then p.(deferred := p.deferred + [msg])
    else
      var q := FlushMedia(p);
      q.(out := q.out + [msg])
  }

  function AddCall(msg: Msg, call: ToolCall): Msg {
    if msg.CallsMsg? then msg.(calls := msg.calls + [call]) else msg
  }

  function StepCall(s: Setting, outputs: set<string>, p: Progress, it: InputItem): Progress
    requires it.CallIn?
  {
    var call := CallOfItem(s.codec, it);
    var q :=
      if p.joining && p.out != [] then
        var last := |p.out| - 1;
        p.(out := p.out[last := AddCall(p.out[last], call)])
      else
        p.(out := p.out + [CallsMsg(Fallback(LookupCall(s.source, call.id), p.pending), [call])], pending := "",
           joining := true);
    q.(awaiting := if call.id in outputs then q.awaiting + {call.id} else q.awaiting)
  }

  function StepOutput(s: Setting, p: Progress, it: InputItem): Progress
    requires it.OutputIn?
  {
    var q := p.(media := p.media + MediaOfItem(s.codec, it), out := p.out + [ResultOfItem(s.codec, it)],
                awaiting := p.awaiting - {it.callID});
    if q.awaiting == {} then FlushDeferred(q) else q
  }

  function StepRegular(s: Setting, p: Progress, it: InputItem): Progress
    requires IsRegular(it)
  {
    var q := AppendRegular(p, RegularOfItem(s.source, it, p.pending));
    if IsAssistant(it) then q.(pending := "") else q
  }

  function Step(s: Setting, outputs: set<string>, p: Progress, it: InputItem): Progress {
    if it.CallIn? then StepCall(s, outputs, p, it)
    else
      var q := p.(joining := false);
      match it
      case OutputIn(_, _, _) => StepOutput(s, q, it)
      case ReasoningIn(summary) => q.(pending := SummaryText(summary))
      case PartIn(_, _) => StepRegular(s, q, it)
      case MessageIn(_, _) => StepRegular(s, q, it)
      case _ => q
  }

  /** The call ids some output in the input answers. */
  function OutputIDs(items: seq<InputItem>): (ids: set<string>)
    ensures forall c :: c in ids <==>
              c != "" && exists i :: 0 <= i < |items| && items[i].OutputIn? && items[i].callID == c
  {
    set i | 0 <= i < |items| && items[i].OutputIn? && items[i].callID != "" :: items[i].callID
  }

  /** After the first `n` items. */
  function After(s: Setting, items: seq<InputItem>, n: nat): Progress
    requires n <= |items|
  {
    if n == 0 then START else Step(s, OutputIDs(items), After(s, items, n - 1), items[n - 1])
  }

  /** Why an item cannot be converted, if it cannot. */
  function ItemError(it: InputItem, index: nat): Option<ParseError> {
    if it.UnknownIn? then Some(Unsupported(it.itemType, index))
    else if it.MessageIn? && it.role == "" then Some(MissingRole(index))
    else None
  }

  /** The first of the items from `n` on that cannot be converted. */
  function FirstError(items: seq<InputItem>, n: nat): (r: Option<ParseError>)
    requires n <= |items|
    ensures r.None? <==> forall i :: n <= i < |items| ==> ItemError(items[i], i).None?
    decreases |items| - n
  {
    if n == |items| then None
    else if ItemError(items[n], n).Some? then ItemError(items[n], n)
    else FirstError(items, n + 1)
  }

  function Messages(s: Setting, items: seq<InputItem>): seq<Msg> {
    FlushDeferred(FlushMedia(After(s, items, |items|))).out
  }

  /** parseInput. */
  function Parsed(s: Setting, input: Input): Result<seq<Msg>, ParseError> {
    match input
    case Absent => Ok([])
    case TextInput(text) => Ok([RegularMsg("user", text, [], "")])
    case Undecodable => Err(NotInput)
    case ItemsInput(items) =>
      match FirstError(items, 0)
      case Some(e) => Err(e)
      case None => Ok(Messages(s, items))
  }
}
