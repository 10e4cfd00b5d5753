/**
 Tool identities: the request-scoped context that maps a flat Chat function name back to the
 Responses tool it came from, and the argument conversions of custom and tool_search calls.
 (convert/request.go, convert/response.go)
 */
module Tools {
  import opened Common
  import opened Json

  datatype Kind = Unset | Function | Custom | ToolSearch

  datatype ToolSpec = ToolSpec(kind: Kind, namespace: string, name: string, execution: string)

  type ToolContext = map<string, ToolSpec>

  function ResolveTool(flat: string, tools: ToolContext): (ref: ToolSpec)
    ensures ref.kind != Unset
  {
    if flat in tools then
      if tools[flat].kind == Unset then tools[flat].(kind := Function) else tools[flat]
    else
      ToolSpec(Function, "", flat, "")
  }

  function JoinToolName(prefix: string, name: string): string {
    if prefix == "" then name else prefix + "__" + name
  }

  function WrapCustomToolInput(c: Codec, input: string): string {
    c.encode(Obj(map["input" := Str(input)]))
  }

  function UnwrapCustomToolInput(c: Codec, arguments: string): string {
    if TrimSpace(arguments) == "" then ""
    else
      match c.decode(arguments)
      case Some(Obj(fields)) =>
        if "input" in fields && fields["input"].Str? then fields["input"].s else arguments
      case _ => arguments
  }

  /** The JSON value of a tool_search call's arguments; JSON null decodes into a nil map and prints as null. */
  function NormalizeToolSearchArguments(c: Codec, arguments: string): Value {
    var text := TrimSpace(arguments);
    if text == "" then Obj(map[])
    else
      match c.decode(text)
      case Some(Obj(fields)) => Obj(fields)
      case Some(Null) => Null
      case _ => Obj(map["query" := Str(text)])
  }

  /** The Chat argument text of a replayed call; a missing field and JSON null both give the empty text. */
  function ChatToolArguments(c: Codec, raw: Option<Value>): string {
    match raw
    case None => ""
    case Some(Null) => ""
    case Some(Str(s)) => s
    case Some(v) => c.encode(v)
  }

  // ---------- what the argument conversions do ----------

  /** The free-form input a custom call's arguments hold: the text field "input" of a JSON object, else the arguments as
      they are; blank arguments hold none. */
  ghost predicate HoldsInput(c: Codec, arguments: string, input: string) {
    if AllSpace(arguments) then input == ""
    else if IsWrapped(c, arguments) then c.decode(arguments).value.fields["input"] == Str(input)
    else input == arguments
  }

  predicate IsWrapped(c: Codec, arguments: string) {
    match c.decode(arguments)
    case Some(Obj(fields)) => "input" in fields && fields["input"].Str?
    case _ => false
  }

  lemma UnwrapIs(c: Codec, arguments: string)
    ensures HoldsInput(c, arguments, UnwrapCustomToolInput(c, arguments))
  {
    hide TrimSpace;
    TrimsToNothing(arguments);
  }

  /** The query a tool_search call's arguments stand for: the JSON object they are, or null, an empty object when they
      are blank, and otherwise their text as the field "query". */
  ghost predicate HoldsQuery(c: Codec, arguments: string, query: Value) {
    exists text: string :: IsTrimmed(arguments, text) && TextHoldsQuery(c, text, query)
  }

  predicate TextHoldsQuery(c: Codec, text: string, query: Value) {
    if text == "" then query == Obj(map[])
    else if c.decode(text).Some? && (c.decode(text).value.Obj? || c.decode(text).value.Null?) then
      query == c.decode(text).value
    else query == Obj(map["query" := Str(text)])
  }

  lemma NormalizeIs(c: Codec, arguments: string)
    ensures HoldsQuery(c, arguments, NormalizeToolSearchArguments(c, arguments))
  {
    hide TrimSpace, IsTrimmed;
    TrimIs(arguments);
    assert TextHoldsQuery(c, TrimSpace(arguments), NormalizeToolSearchArguments(c, arguments));
  }
}
