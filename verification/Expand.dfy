/**
 Flattening the Responses tool declarations of a request, nested in namespaces, into the Chat functions sent upstream
 and the context that leads back from their names. (convert/request.go expandTools)
 */
module Expand {
  import opened Common
  import opened Json
  import opened Tools

  /** A Responses tool declaration; a namespace has children. `format` is raw JSON text. */
  datatype Decl = Decl(
    kind: string, name: string, description: string, parameters: Option<Value>, format: string, strict: Option<bool>,
    children: seq<Decl>)

  datatype ChatTool = ChatTool(name: string, description: string, parameters: Value, strict: Option<bool>)

  /** A declaration that turns into a Chat function; without a tool when preparing its schema panics. */
  datatype Candidate = Candidate(flat: string, spec: ToolSpec, tool: Option<ChatTool>)

  const OBJECT_SCHEMA := Obj(map["type" := Str("object")])
  const TOOL_SEARCH := "tool_search"
  const SEARCH_DESCRIPTION := "Search and load tools available to the client for the current task."
  const SEARCH_PARAMETERS :=
    Obj(map["type" := Str("object"),
            "properties" := Obj(map["query" := Obj(map["type" := Str("string")]),
                                    "limit" := Obj(map["type" := Str("integer")])]),
            "required" := Arr([Str("query")])])
  const CUSTOM_PARAMETERS :=
    Obj(map["type" := Str("object"), "properties" := Obj(map["input" := Obj(map["type" := Str("string")])]),
            "required" := Arr([Str("input")])])

  /** ensureObjectSchema; JSON null decodes into a nil map, and writing the missing "type" into it panics. */
  function EnsureObjectSchema(raw: Option<Value>): (r: Option<Value>)
    ensures r.None? <==> raw == Some(Null)
    ensures r.Some? ==> r.value.Obj? && "type" in r.value.fields
    ensures raw.Some? && raw.value.Obj? ==>
      r.value.fields.Keys == raw.value.fields.Keys + {"type"}
      && forall k :: k in raw.value.fields ==> r.value.fields[k] == raw.value.fields[k]
  {
    match raw
    case Some(Null) => None
    case Some(Obj(fields)) => Some(Obj(if "type" in fields then fields else fields["type" := Str("object")]))
    case _ => Some(OBJECT_SCHEMA)
  }

  function CustomDescription(d: Decl): string {
    var format := TrimSpace(d.format);
    if format == "" || format == "null" then d.description
    else if d.description == "" then "Custom tool input format: " + format
    else d.description + "\n\nCustom tool input format: " + format
  }

  function FunctionCandidate(d: Decl, prefix: string): Candidate {
    var flat := JoinToolName(prefix, d.name);
    var schema := EnsureObjectSchema(d.parameters);
    Candidate(flat, ToolSpec(Function, prefix, d.name, ""),
              if schema.None? then None else Some(ChatTool(flat, d.description, schema.value, d.strict)))
  }

  function CustomCandidate(d: Decl, prefix: string): Candidate {
    var flat := JoinToolName(prefix, d.name);
    Candidate(flat, ToolSpec(Custom, prefix, d.name, ""),
              Some(ChatTool(flat, CustomDescription(d), CUSTOM_PARAMETERS, None)))
  }

  function SearchCandidate(d: Decl): Candidate {
    var schema := if d.parameters.None? || d.parameters == Some(Null) then SEARCH_PARAMETERS
                  else EnsureObjectSchema(d.parameters).value;
    Candidate(TOOL_SEARCH, ToolSpec(ToolSearch, "", TOOL_SEARCH, "client"),
              Some(ChatTool(TOOL_SEARCH,
                            if d.description == "" then SEARCH_DESCRIPTION else d.description, schema, None)))
  }

  /** The candidates of a list of declarations, depth first, under a joined namespace prefix. */
  function Flatten(ds: seq<Decl>, prefix: string): seq<Candidate>
    decreases ds
  {
    if ds == [] then []
    else
      var n := |ds| - 1;
      var d := ds[n];
      Flatten(ds[..n], prefix)
      + (if d.kind == "namespace" then Flatten(d.children, JoinToolName(prefix, d.name))
         else if d.kind == "function" && d.name != "" then [FunctionCandidate(d, prefix)]
         else if d.kind == "custom" && d.name != "" then [CustomCandidate(d, prefix)]
         else if d.kind == "tool_search" then [SearchCandidate(d)]
         else [])
  }

  /** The candidates whose name no earlier one has. */
  function Firsts(cs: seq<Candidate>): seq<Candidate> {
    if cs == [] then []
    else
      var n := |cs| - 1;
      Firsts(cs[..n]) + if Named(cs[..n], cs[n].flat) then [] else [cs[n]]
  }

  predicate Named(cs: seq<Candidate>, flat: string) {
    exists i :: 0 <= i < |cs| && cs[i].flat == flat
  }

  /** Every schema can be prepared. */
  predicate AllPrepared(cs: seq<Candidate>) {
    forall i :: 0 <= i < |cs| ==> cs[i].tool.Some?
  }

  /** The Chat tools and the context of some candidates with different names. */
  ghost predicate Holds(chat: seq<ChatTool>, context: ToolContext, kept: seq<Candidate>) {
    && |chat| == |kept|
    && (forall i :: 0 <= i < |kept| ==>
          kept[i].tool == Some(chat[i]) && chat[i].name == kept[i].flat && kept[i].flat in context
              && context[kept[i].flat] == kept[i].spec)
    && (forall flat :: flat in context ==> Named(kept, flat))
  }

  // ---------- the walk ----------

  class Expansion {
    var chat: seq<ChatTool>
    var context: ToolContext

    constructor ()
      ensures chat == [] && context == map[]
    {
      chat, context := [], map[];
    }

    method Add(flat: string, spec: ToolSpec, tool: ChatTool)
      modifies this
      ensures if flat == "" || flat in old(context) then chat == old(chat) && context == old(context)
              else chat == old(chat) + [tool] && context == old(context)[flat := spec]
    {
      if flat == "" {
        return;
      }
      if flat in context {
        return;
      }
      context := context[flat := spec];
      chat := chat + [tool];
    }

    /** Adds a prepared candidate to what `seen` left. */
    method AddCandidate(c: Candidate, tool: ChatTool, ghost seen: seq<Candidate>)
      requires c.tool == Some(tool) && tool.name == c.flat && c.flat != ""
      requires AllPrepared(seen) && Holds(chat, context, Firsts(seen))
      modifies this
      ensures AllPrepared(seen + [c]) && Holds(chat, context, Firsts(seen + [c]))
    {
      hide Firsts, Holds;
      FirstsNames(seen, c.flat);
      HoldsNames(chat, context, Firsts(seen), c.flat);
      FirstsStep(seen, c);
      Add(c.flat, c.spec, tool);
      if !Named(seen, c.flat) {
        HoldsStep(old(chat), old(context), Firsts(seen), c, tool);
      }
    }

    /** Adds the declarations under `prefix`; false when it panics. */
    method Walk(ds: seq<Decl>, prefix: string, ghost seen: seq<Candidate>) returns (completed: bool)
      requires AllPrepared(seen) && Holds(chat, context, Firsts(seen))
      modifies this
      ensures completed <==> AllPrepared(Flatten(ds, prefix))
      ensures completed ==>
          AllPrepared(seen + Flatten(ds, prefix)) && Holds(chat, context, Firsts(seen + Flatten(ds, prefix)))
      decreases ds
    {
      hide Firsts, Holds, AllPrepared, FunctionCandidate, CustomCandidate, SearchCandidate;
      NoMore(seen);
      for i := 0 to |ds|
        invariant AllPrepared(Flatten(ds[..i], prefix))
        invariant AllPrepared(seen + Flatten(ds[..i], prefix))
        invariant Holds(chat, context, Firsts(seen + Flatten(ds[..i], prefix)))
      {
        var d := ds[i];
        ghost var before := Flatten(ds[..i], prefix);
        FlattenStep(ds, i, prefix);
        if d.kind == "namespace" {
          ghost var inner := Flatten(d.children, JoinToolName(prefix, d.name));
          var ok := Walk(d.children, JoinToolName(prefix, d.name), seen + before);
          Grown(seen, before, inner);
          if !ok {
            PanicStays(ds, i + 1, prefix);
            return false;
          }
        } else if d.kind == "function" && d.name != "" {
          var c := FunctionCandidate(d, prefix);
          FlatNonEmpty(d, prefix);
          Grown(seen, before, [c]);
          OnePrepared(c);
          if c.tool.None? {
            PanicStays(ds, i + 1, prefix);
            return false;
          }
          AddCandidate(c, c.tool.value, seen + before);
        } else if d.kind == "custom" && d.name != "" {
          var c := CustomCandidate(d, prefix);
          FlatNonEmpty(d, prefix);
          Grown(seen, before, [c]);
          OnePrepared(c);
          AddCandidate(c, c.tool.value, seen + before);
        } else if d.kind == "tool_search" {
          var c := SearchCandidate(d);
          SearchNamed(d);
          Grown(seen, before, [c]);
          OnePrepared(c);
          AddCandidate(c, c.tool.value, seen + before);
        } else {
          Grown(seen, before, []);
        }
      }
      assert ds[..|ds|] == ds;
      completed := true;
    }
  }

  /** expandTools; no result when it panics. */
  method ExpandTools(ds: seq<Decl>) returns (r: Option<(seq<ChatTool>, ToolContext)>)
    ensures r.Some? <==> AllPrepared(Flatten(ds, ""))
    ensures r.Some? ==> Holds(r.value.0, r.value.1, Firsts(Flatten(ds, "")))
  {
    var e := new Expansion();
    var completed := e.Walk(ds, "", []);
    assert [] + Flatten(ds, "") == Flatten(ds, "");
    r := if completed then Some((e.chat, e.context)) else None;
  }

  lemma NoMore(seen: seq<Candidate>)
    ensures seen + Flatten([], "") == seen && AllPrepared([])
  {
  }

  lemma FlattenStep(ds: seq<Decl>, i: nat, prefix: string)
    requires i < |ds|
    ensures var d := ds[i];
            Flatten(ds[..i + 1], prefix) == Flatten(ds[..i], prefix)
            + (if d.kind == "namespace" then Flatten(d.children, JoinToolName(prefix, d.name))
               else if d.kind == "function" && d.name != "" then [FunctionCandidate(d, prefix)]
               else if d.kind == "custom" && d.name != "" then [CustomCandidate(d, prefix)]
               else if d.kind == "tool_search" then [SearchCandidate(d)]
               else [])
  {
    assert ds[..i + 1][..i] == ds[..i];
  }

  lemma Grown(seen: seq<Candidate>, before: seq<Candidate>, more: seq<Candidate>)
    ensures seen + before + more == seen + (before + more)
    ensures AllPrepared(before + more) <==> AllPrepared(before) && AllPrepared(more)
    ensures more == [] ==> before + more == before
  {
    forall i | 0 <= i < |more| ensures (before + more)[|before| + i] == more[i] {}
    if AllPrepared(before + more) {
      forall i | 0 <= i < |before| ensures before[i].tool.Some? { assert (before + more)[i] == before[i]; }
    }
  }

  lemma OnePrepared(c: Candidate)
    ensures AllPrepared([c]) <==> c.tool.Some?
  {
    assert [c][0] == c;
  }

  lemma FlatNonEmpty(d: Decl, prefix: string)
    requires d.name != ""
    ensures var f := FunctionCandidate(d, prefix); f.flat != "" && (f.tool.Some? ==> f.tool.value.name == f.flat)
    ensures var c := CustomCandidate(d, prefix); c.flat != "" && c.tool.Some? && c.tool.value.name == c.flat
  {
  }

  lemma SearchNamed(d: Decl)
    ensures var c := SearchCandidate(d); c.flat != "" && c.tool.Some? && c.tool.value.name == c.flat
  {
  }

  lemma {:induction false} PanicStays(ds: seq<Decl>, n: nat, prefix: string)
    requires n <= |ds| && !AllPrepared(Flatten(ds[..n], prefix))
    ensures !AllPrepared(Flatten(ds, prefix))
    decreases |ds| - n
  {
    if n == |ds| {
      assert ds[..n] == ds;
    } else {
      FlattenStep(ds, n, prefix);
      Grown([], Flatten(ds[..n], prefix), Flatten(ds[..n + 1], prefix)[|Flatten(ds[..n], prefix)|..]);
      PanicStays(ds, n + 1, prefix);
    }
  }

  lemma {:induction false} FirstsNames(cs: seq<Candidate>, flat: string)
    ensures Named(Firsts(cs), flat) <==> Named(cs, flat)
  {
    if cs != [] {
      var n := |cs| - 1;
      FirstsNames(cs[..n], flat);
      NamedAppend(cs[..n], cs[n], flat);
      NamedAppend(Firsts(cs[..n]), cs[n], flat);
      assert cs == cs[..n] + [cs[n]];
      FirstsStep(cs[..n], cs[n]);
    }
  }

  lemma NamedAppend(cs: seq<Candidate>, c: Candidate, flat: string)
    ensures Named(cs + [c], flat) <==> Named(cs, flat) || c.flat == flat
  {
    assert (cs + [c])[|cs|] == c;
    if Named(cs, flat) {
      var i :| 0 <= i < |cs| && cs[i].flat == flat;
      assert (cs + [c])[i].flat == flat;
    }
  }

  lemma FirstsStep(seen: seq<Candidate>, c: Candidate)
    ensures Firsts(seen + [c]) == if Named(seen, c.flat) then Firsts(seen) else Firsts(seen) + [c]
    ensures AllPrepared(seen + [c]) <==> AllPrepared(seen) && c.tool.Some?
  {
    var all := seen + [c];
    assert all[..|all| - 1] == seen && all[|seen|] == c;
    assert forall i :: 0 <= i < |seen| ==> all[i] == seen[i];
  }

  lemma HoldsNames(chat: seq<ChatTool>, context: ToolContext, kept: seq<Candidate>, flat: string)
    requires Holds(chat, context, kept)
    ensures flat in context <==> Named(kept, flat)
  {
  }

  lemma HoldsStep(chat: seq<ChatTool>, context: ToolContext, kept: seq<Candidate>, c: Candidate, tool: ChatTool)
    requires Holds(chat, context, kept) && c.tool == Some(tool) && tool.name == c.flat && c.flat !in context
    ensures Holds(chat + [tool], context[c.flat := c.spec], kept + [c])
  {
    forall flat | flat in context[c.flat := c.spec] ensures Named(kept + [c], flat) {
      NamedAppend(kept, c, flat);
    }
  }

  // ---------- what the result means ----------

  lemma {:induction false} FirstsDistinct(cs: seq<Candidate>)
    ensures var kept := Firsts(cs); forall i, j :: 0 <= i < j < |kept| ==> kept[i].flat != kept[j].flat
  {
    if cs != [] {
      var n := |cs| - 1;
      FirstsDistinct(cs[..n]);
      FirstsNames(cs[..n], cs[n].flat);
    }
  }

  /** Where the kept candidates stand among all of them. */
  function FirstPlaces(cs: seq<Candidate>): seq<nat> {
    if cs == [] then []
    else
      var n := |cs| - 1;
      FirstPlaces(cs[..n]) + if Named(cs[..n], cs[n].flat) then [] else [n]
  }

  lemma {:induction false} FirstsPlaced(cs: seq<Candidate>)
    ensures var kept, at := Firsts(cs), FirstPlaces(cs);
            && |at| == |kept|
            && (forall k :: 0 <= k < |at| ==> at[k] < |cs| && cs[at[k]] == kept[k] && !Named(cs[..at[k]], kept[k].flat))
            && (forall k, m :: 0 <= k < m < |at| ==> at[k] < at[m])
  {
    if cs != [] {
      var n := |cs| - 1;
      FirstsPlaced(cs[..n]);
      assert forall k :: 0 <= k < |FirstPlaces(cs[..n])| ==>
               cs[..n][..FirstPlaces(cs[..n])[k]] == cs[..FirstPlaces(cs[..n])[k]];
    }
  }

  /**
   Distinct names, the first declaration of a name wins, and the order of declaration is kept: the tools sent upstream
   have different names, these names are exactly the keys of the context, and each tool and its entry come from the
   first declaration of that flat name.
   */
  lemma FirstWins(cs: seq<Candidate>, chat: seq<ChatTool>, context: ToolContext)
    requires AllPrepared(cs) && Holds(chat, context, Firsts(cs))
    ensures forall i, j :: 0 <= i < j < |chat| ==> chat[i].name != chat[j].name
    ensures forall flat :: flat in context <==> exists i :: 0 <= i < |chat| && chat[i].name == flat
    ensures forall flat :: flat in context <==> Named(cs, flat)
    ensures |FirstPlaces(cs)| == |chat|
    ensures forall k :: 0 <= k < |chat| ==>
      var i := FirstPlaces(cs)[k];
      i < |cs| && cs[i].tool == Some(chat[k]) && context[chat[k].name] == cs[i].spec && !Named(cs[..i], chat[k].name)
    ensures forall k, m :: 0 <= k < m < |chat| ==> FirstPlaces(cs)[k] < FirstPlaces(cs)[m]
  {
    var kept := Firsts(cs);
    FirstsDistinct(cs);
    FirstsPlaced(cs);
    forall i, j | 0 <= i < j < |chat| ensures chat[i].name != chat[j].name {
      assert chat[i].name == kept[i].flat && chat[j].name == kept[j].flat;
    }
    forall flat ensures flat in context <==> Named(cs, flat) { FirstsNames(cs, flat); }
    forall flat ensures flat in context <==> exists i :: 0 <= i < |chat| && chat[i].name == flat {
      if flat in context {
        var i :| 0 <= i < |kept| && kept[i].flat == flat;
        assert chat[i].name == flat;
      }
    }
  }

  /** What every entry of a context says about its flat name. */
  ghost predicate LeadsBack(context: ToolContext) {
    forall flat :: flat in context ==> EntryLeadsBack(flat, context[flat])
  }

  predicate EntryLeadsBack(flat: string, spec: ToolSpec) {
    && flat != "" && spec.kind != Unset && JoinToolName(spec.namespace, spec.name) == flat
    && (spec.kind == ToolSearch ==> flat == TOOL_SEARCH && spec.namespace == "" && spec.execution != "")
  }

  lemma {:induction false} CandidatesLeadBack(ds: seq<Decl>, prefix: string)
    ensures forall i :: 0 <= i < |Flatten(ds, prefix)| ==>
              EntryLeadsBack(Flatten(ds, prefix)[i].flat, Flatten(ds, prefix)[i].spec)
    decreases ds
  {
    if ds != [] {
      var n := |ds| - 1;
      var d := ds[n];
      CandidatesLeadBack(ds[..n], prefix);
      if d.kind == "namespace" {
        CandidatesLeadBack(d.children, JoinToolName(prefix, d.name));
      } else if d.name != "" {
        FlatNonEmpty(d, prefix);
      }
    }
  }

  /** Every emitted name is its declaration's namespace and local name joined, so it can be joined again on replay. */
  lemma ContextLeadsBack(ds: seq<Decl>, chat: seq<ChatTool>, context: ToolContext)
    requires Holds(chat, context, Firsts(Flatten(ds, "")))
    ensures LeadsBack(context)
  {
    var cs := Flatten(ds, "");
    CandidatesLeadBack(ds, "");
    FirstsPlaced(cs);
    forall flat | flat in context ensures EntryLeadsBack(flat, context[flat]) {
      var k :| 0 <= k < |Firsts(cs)| && Firsts(cs)[k].flat == flat;
      assert cs[FirstPlaces(cs)[k]] == Firsts(cs)[k];
    }
  }

  /** A function, however deep in namespaces, whose parameters are JSON null. */
  predicate NullSchema(d: Decl) {
    if d.kind == "namespace" then exists i :: 0 <= i < |d.children| && NullSchema(d.children[i])
    else d.kind == "function" && d.name != "" && d.parameters == Some(Null)
  }

  lemma OneDecl(d: Decl, prefix: string, cs: seq<Candidate>)
    requires d.kind != "namespace"
    requires cs == if d.kind == "function" && d.name != "" then [FunctionCandidate(d, prefix)]
                   else if d.kind == "custom" && d.name != "" then [CustomCandidate(d, prefix)]
                   else if d.kind == "tool_search" then [SearchCandidate(d)]
                   else []
    ensures AllPrepared(cs) <==> !NullSchema(d)
  {
    hide JoinToolName;
    if cs != [] { OnePrepared(cs[0]); }
  }

  predicate NoNullSchema(ds: seq<Decl>) { forall i :: 0 <= i < |ds| ==> !NullSchema(ds[i]) }

  lemma OneNullSchemaMore(ds: seq<Decl>, d: Decl)
    ensures NoNullSchema(ds + [d]) <==> NoNullSchema(ds) && !NullSchema(d)
    ensures d.kind == "namespace" ==> (NullSchema(d) <==> !NoNullSchema(d.children))
  {
    var all := ds + [d];
    assert all[|ds|] == d && forall i :: 0 <= i < |ds| ==> all[i] == ds[i];
  }

  /** Expansion completes for exactly the requests without such a function; one declaration of it makes it panic. */
  lemma {:induction false} CompletesUnlessNullSchema(ds: seq<Decl>, prefix: string)
    ensures AllPrepared(Flatten(ds, prefix)) <==> NoNullSchema(ds)
    decreases ds
  {
    hide Flatten, AllPrepared, JoinToolName, FunctionCandidate, CustomCandidate, SearchCandidate, NoNullSchema,
         NullSchema;
    if ds == [] {
      NothingToPrepare(prefix);
    } else {
      var n := |ds| - 1;
      var d := ds[n];
      CompletesUnlessNullSchema(ds[..n], prefix);
      FlattenStep(ds, n, prefix);
      assert ds[..n + 1] == ds && ds == ds[..n] + [d];
      OneNullSchemaMore(ds[..n], d);
      var last := Flatten(ds, prefix)[|Flatten(ds[..n], prefix)|..];
      Grown([], Flatten(ds[..n], prefix), last);
      if d.kind == "namespace" {
        CompletesUnlessNullSchema(d.children, JoinToolName(prefix, d.name));
      } else {
        OneDecl(d, prefix, last);
      }
    }
  }

  lemma NothingToPrepare(prefix: string)
    ensures AllPrepared(Flatten([], prefix)) && NoNullSchema([])
  {
  }

  const NULL_SCHEMA_DECLARATION := Decl("function", "f", "", Some(Null), "", None, [])

  /** The smallest such request: one function, at the top or anywhere in a namespace, is enough. */
  lemma NullSchemaPanics(before: seq<Decl>, after: seq<Decl>, space: string, prefix: string)
    ensures !AllPrepared(Flatten([NULL_SCHEMA_DECLARATION], prefix))
    ensures var nested := Decl("namespace", space, "", None, "", None, before + [NULL_SCHEMA_DECLARATION] + after);
            !AllPrepared(Flatten([nested], prefix))
  {
    hide Flatten, AllPrepared;
    var d := NULL_SCHEMA_DECLARATION;
    var nested := Decl("namespace", space, "", None, "", None, before + [d] + after);
    assert NullSchema(d);
    assert nested.children[|before|] == d;
    assert NullSchema([d][0]) && NullSchema([nested][0]);
    assert !NoNullSchema([d]) && !NoNullSchema([nested]);
    CompletesUnlessNullSchema([d], prefix);
    CompletesUnlessNullSchema([nested], prefix);
  }
}
