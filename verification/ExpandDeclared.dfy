/**
 The tools sent upstream against the declarations they come from: which declaration, found by its place among the
 nested namespaces, each tool stands for, and what it takes over from it. (convert/request.go expandTools,
 ensureObjectSchema, customToolDescription, joinToolName)
 */
module ExpandDeclared {
  import opened Common
  import opened Json
  import opened Tools
  import opened Expand

  /** The way to a declaration: its number in the list, or a namespace's number and then the way inside it. */
  type Place = seq<nat>

  // ---------- declarations ----------

  function DeclAt(ds: seq<Decl>, p: Place): Option<Decl>
    decreases |p|
  {
    if p == [] || p[0] >= |ds| then None
    else if |p| == 1 then Some(ds[p[0]])
    else if ds[p[0]].kind == "namespace" then DeclAt(ds[p[0]].children, p[1..])
    else None
  }

  /** The names of the namespaces on the way to a declaration. */
  function Spaces(ds: seq<Decl>, p: Place): seq<string>
    requires DeclAt(ds, p).Some?
    decreases |p|
  {
    if |p| == 1 then [] else [ds[p[0]].name] + Spaces(ds[p[0]].children, p[1..])
  }

  /** Names joined to `first`, two underscores between them; an empty beginning takes none. */
  function Joined(first: string, names: seq<string>): string {
    if names == [] then first
    else
      var n := |names| - 1;
      var front := Joined(first, names[..n]);
      if front == "" then names[n] else front + "__" + names[n]
  }

  predicate IsTool(d: Decl) {
    (d.kind == "function" && d.name != "") || (d.kind == "custom" && d.name != "") || d.kind == "tool_search"
  }

  /** There is a tool declared at this place. */
  predicate Declares(ds: seq<Decl>, p: Place) { DeclAt(ds, p).Some? && IsTool(DeclAt(ds, p).value) }

  /** The name a declaration goes by upstream. */
  function FlatName(d: Decl, first: string, spaces: seq<string>): string {
    if d.kind == "tool_search" then "tool_search" else Joined(first, spaces + [d.name])
  }

  function NameAt(ds: seq<Decl>, first: string, p: Place): string
    requires DeclAt(ds, p).Some?
  {
    FlatName(DeclAt(ds, p).value, first, Spaces(ds, p))
  }

  /** `p` is declared before `q`. */
  predicate Earlier(p: Place, q: Place) {
    p != [] && q != [] && (p[0] < q[0] || (p[0] == q[0] && Earlier(p[1..], q[1..])))
  }

  // ---------- what a tool takes over ----------

  /** The parameters of a declaration as an object schema: as declared, with a type when it names none. */
  predicate SchemaOf(raw: Option<Value>, schema: Value) {
    if raw.Some? && raw.value.Obj? then
      var fields := raw.value.fields;
      if "type" in fields then schema == raw.value
      else
        && schema.Obj? && schema.fields.Keys == fields.Keys + {"type"} && schema.fields["type"] == Str("object")
        && forall k :: k in fields ==> schema.fields[k] == fields[k]
    else schema == Obj(map["type" := Str("object")])
  }

  /** An object schema whose one required property is a text. */
  predicate RequiresText(schema: Value, name: string) {
    && schema.Obj? && schema.fields.Keys == {"type", "properties", "required"}
    && schema.fields["type"] == Str("object") && schema.fields["required"] == Arr([Str(name)])
    && schema.fields["properties"].Obj? && name in schema.fields["properties"].fields
    && schema.fields["properties"].fields[name] == Obj(map["type" := Str("string")])
  }

  /** The description of a custom tool says its input format, unless there is none. */
  ghost predicate CustomSays(d: Decl, description: string) {
    exists format :: IsTrimmed(d.format, format) && FormatSays(d, format, description)
  }

  predicate FormatSays(d: Decl, format: string, description: string) {
    if format == "" || format == "null" then description == d.description
    else
      var note := "Custom tool input format: " + format;
      description == if d.description == "" then note else d.description + "\n\n" + note
  }

  /** What the Chat function of a declaration takes over from it. */
  ghost predicate ToolSays(d: Decl, tool: ChatTool) {
    if d.kind == "function" then
      tool.description == d.description && tool.strict == d.strict && SchemaOf(d.parameters, tool.parameters)
    else if d.kind == "custom" then
      && CustomSays(d, tool.description) && tool.strict == None
      && RequiresText(tool.parameters, "input") && tool.parameters.fields["properties"].fields.Keys == {"input"}
    else
      && d.kind == "tool_search" && tool.strict == None
      && (if d.description != "" then tool.description == d.description
          else tool.description == "Search and load tools available to the client for the current task.")
      && if d.parameters == None || d.parameters == Some(Null) then
           && RequiresText(tool.parameters, "query")
           && tool.parameters.fields["properties"].fields
              == map["query" := Obj(map["type" := Str("string")]), "limit" := Obj(map["type" := Str("integer")])]
         else SchemaOf(d.parameters, tool.parameters)
  }

  /** The entry that leads back to a declaration. */
  predicate EntrySays(d: Decl, first: string, spaces: seq<string>, spec: ToolSpec) {
    if d.kind == "tool_search" then spec == ToolSpec(ToolSearch, "", "tool_search", "client")
    else spec == ToolSpec(if d.kind == "custom" then Custom else Function, Joined(first, spaces), d.name, "")
  }

  /** A candidate stands for a declaration: its name, its entry and, unless its schema panics, its tool. */
  ghost predicate StandsFor(d: Decl, first: string, spaces: seq<string>, c: Candidate) {
    && c.flat == FlatName(d, first, spaces) && EntrySays(d, first, spaces, c.spec)
    && (c.tool.Some? ==> c.tool.value.name == c.flat && ToolSays(d, c.tool.value))
  }

  lemma SchemaIs(raw: Option<Value>)
    requires raw != Some(Null)
    ensures SchemaOf(raw, EnsureObjectSchema(raw).value)
  {
  }

  lemma FunctionIs(d: Decl, first: string)
    requires d.kind == "function" && d.name != ""
    ensures StandsFor(d, first, [], FunctionCandidate(d, first))
  {
    hide SchemaOf;
    OneJoined(first, d.name);
    if d.parameters != Some(Null) { SchemaIs(d.parameters); }
  }

  lemma OneJoined(first: string, name: string)
    ensures Joined(first, [] + [name]) == JoinToolName(first, name) && Joined(first, []) == first
  {
    assert ([] + [name])[..0] == [];
  }

  lemma CustomIs(d: Decl, first: string)
    requires d.kind == "custom" && d.name != ""
    ensures StandsFor(d, first, [], CustomCandidate(d, first))
  {
    hide CustomSays, CustomDescription, Joined, JoinToolName, RequiresText;
    OneJoined(first, d.name);
    DescriptionIs(d);
    CustomParameters();
  }

  lemma DescriptionIs(d: Decl)
    ensures CustomSays(d, CustomDescription(d))
  {
    hide TrimSpace, IsTrimmed;
    TrimIs(d.format);
    assert FormatSays(d, TrimSpace(d.format), CustomDescription(d));
  }

  lemma CustomParameters()
    ensures var schema := CUSTOM_PARAMETERS;
            RequiresText(schema, "input") && schema.fields["properties"].fields.Keys == {"input"}
  {
    var schema := CUSTOM_PARAMETERS;
    assert schema.fields["properties"] == Obj(map["input" := Obj(map["type" := Str("string")])]);
  }

  lemma SearchIs(d: Decl, first: string)
    requires d.kind == "tool_search"
    ensures StandsFor(d, first, [], SearchCandidate(d))
  {
    hide SchemaOf;
    if d.parameters.Some? && d.parameters != Some(Null) { SchemaIs(d.parameters); }
  }

  // ---------- places and candidates side by side ----------

  function Within(i: nat, ps: seq<Place>): (r: seq<Place>)
    ensures |r| == |ps|
  {
    seq(|ps|, k requires 0 <= k < |ps| => [i] + ps[k])
  }

  /** The places of the declared tools, in the order the walk meets them. */
  function Places(ds: seq<Decl>): seq<Place>
    decreases ds
  {
    if ds == [] then []
    else
      var n := |ds| - 1;
      Places(ds[..n])
      + (if ds[n].kind == "namespace" then Within(n, Places(ds[n].children)) else if IsTool(ds[n]) then [[n]] else [])
  }

  ghost predicate SideBySide(ds: seq<Decl>, first: string, ps: seq<Place>, cs: seq<Candidate>) {
    && |ps| == |cs|
    && forall k :: 0 <= k < |ps| ==>
         DeclAt(ds, ps[k]).Some? && StandsFor(DeclAt(ds, ps[k]).value, first, Spaces(ds, ps[k]), cs[k])
  }

  lemma {:induction false} JoinedFromFront(first: string, name: string, names: seq<string>)
    ensures Joined(first, [name] + names) == Joined(JoinToolName(first, name), names)
  {
    if names == [] {
      assert [name] + names == [] + [name];
      OneJoined(first, name);
    } else {
      var n := |names| - 1;
      JoinedFromFront(first, name, names[..n]);
      assert ([name] + names)[..n + 1] == [name] + names[..n];
    }
  }

  /** A candidate found inside a namespace stands for its declaration from outside. */
  lemma StandsOutside(d: Decl, first: string, name: string, spaces: seq<string>, c: Candidate)
    requires StandsFor(d, JoinToolName(first, name), spaces, c)
    ensures StandsFor(d, first, [name] + spaces, c)
  {
    hide ToolSays, Joined;
    JoinedFromFront(first, name, spaces);
    JoinedFromFront(first, name, spaces + [d.name]);
    assert [name] + (spaces + [d.name]) == [name] + spaces + [d.name];
  }

  lemma InsideIs(ds: seq<Decl>, first: string, i: nat, ps: seq<Place>, cs: seq<Candidate>)
    requires i < |ds| && ds[i].kind == "namespace"
    requires SideBySide(ds[i].children, JoinToolName(first, ds[i].name), ps, cs)
    ensures SideBySide(ds, first, Within(i, ps), cs)
  {
    hide StandsFor, JoinToolName;
    forall k | 0 <= k < |ps|
      ensures var p := Within(i, ps)[k];
              DeclAt(ds, p).Some? && StandsFor(DeclAt(ds, p).value, first, Spaces(ds, p), cs[k])
    {
      var p := Within(i, ps)[k];
      assert p == [i] + ps[k] && p[1..] == ps[k];
      StandsOutside(DeclAt(ds, p).value, first, ds[i].name, Spaces(ds[i].children, ps[k]), cs[k]);
    }
  }

  lemma FrontIs(ds: seq<Decl>, first: string, n: nat, ps: seq<Place>, cs: seq<Candidate>)
    requires n <= |ds| && SideBySide(ds[..n], first, ps, cs)
    ensures SideBySide(ds, first, ps, cs)
  {
    hide StandsFor;
    forall p: Place | DeclAt(ds[..n], p).Some?
      ensures DeclAt(ds, p) == DeclAt(ds[..n], p) && Spaces(ds, p) == Spaces(ds[..n], p)
    {
      assert ds[..n][p[0]] == ds[p[0]];
    }
  }

  lemma BothSides(ds: seq<Decl>, first: string, ps: seq<Place>, cs: seq<Candidate>, qs: seq<Place>, es: seq<Candidate>)
    requires SideBySide(ds, first, ps, cs) && SideBySide(ds, first, qs, es)
    ensures SideBySide(ds, first, ps + qs, cs + es)
  {
    hide StandsFor, DeclAt;
  }

  /** The last declaration alone. */
  lemma LastIs(ds: seq<Decl>, first: string)
    requires ds != [] && IsTool(ds[|ds| - 1])
    ensures var n := |ds| - 1;
            var c := if ds[n].kind == "function" then FunctionCandidate(ds[n], first)
                     else if ds[n].kind == "custom" then CustomCandidate(ds[n], first)
                     else SearchCandidate(ds[n]);
            SideBySide(ds, first, [[n]], [c])
  {
    hide StandsFor, FunctionCandidate, CustomCandidate, SearchCandidate;
    var d := ds[|ds| - 1];
    if d.kind == "function" { FunctionIs(d, first); } else if d.kind == "custom" { CustomIs(d, first); }
    else { SearchIs(d, first); }
  }

  lemma {:induction false} CandidatesStand(ds: seq<Decl>, first: string)
    ensures SideBySide(ds, first, Places(ds), Flatten(ds, first))
    decreases ds
  {
    hide SideBySide, FunctionCandidate, CustomCandidate, SearchCandidate, JoinToolName;
    if ds == [] {
      NothingBeside(first);
    } else {
      var n := |ds| - 1;
      var d := ds[n];
      CandidatesStand(ds[..n], first);
      FrontIs(ds, first, n, Places(ds[..n]), Flatten(ds[..n], first));
      if d.kind == "namespace" {
        var inner := JoinToolName(first, d.name);
        CandidatesStand(d.children, inner);
        InsideIs(ds, first, n, Places(d.children), Flatten(d.children, inner));
        BothSides(ds, first, Places(ds[..n]), Flatten(ds[..n], first), Within(n, Places(d.children)),
                  Flatten(d.children, inner));
      } else if IsTool(d) {
        LastIs(ds, first);
        var c := if d.kind == "function" then FunctionCandidate(d, first)
                 else if d.kind == "custom" then CustomCandidate(d, first)
                 else SearchCandidate(d);
        BothSides(ds, first, Places(ds[..n]), Flatten(ds[..n], first), [[n]], [c]);
      } else {
        assert Places(ds) == Places(ds[..n]) && Flatten(ds, first) == Flatten(ds[..n], first);
      }
    }
  }

  lemma NothingBeside(first: string)
    ensures SideBySide([], first, [], [])
  {
  }

  // ---------- every declared tool, in order ----------

  lemma InWithin(i: nat, ps: seq<Place>, p: Place)
    ensures p in Within(i, ps) <==> p != [] && p[0] == i && p[1..] in ps
  {
    var r := Within(i, ps);
    if p in r {
      var k :| 0 <= k < |r| && r[k] == p;
      assert p == [i] + ps[k] && p[1..] == ps[k];
    }
    if p != [] && p[0] == i && p[1..] in ps {
      var k :| 0 <= k < |ps| && ps[k] == p[1..];
      assert r[k] == [i] + p[1..] == p;
    }
  }

  lemma {:induction false} PlacesComplete(ds: seq<Decl>, p: Place)
    ensures p in Places(ds) <==> Declares(ds, p)
    decreases ds
  {
    hide IsTool;
    if ds != [] {
      var n := |ds| - 1;
      PlacesComplete(ds[..n], p);
      InWithin(n, Places(ds[n].children), p);
      if p != [] && p[0] == n { PlacesComplete(ds[n].children, p[1..]); }
      assert p != [] && p[0] < n ==> ds[..n][p[0]] == ds[p[0]];
      if ds[n].kind == "namespace" { NamespaceIsNoTool(ds[n]); }
      assert |p| == 1 && p[0] == n ==> p == [n];
    }
  }

  lemma NamespaceIsNoTool(d: Decl)
    requires d.kind == "namespace"
    ensures !IsTool(d)
  {
  }

  ghost predicate InSequence(ps: seq<Place>) {
    forall i, j :: 0 <= i < j < |ps| ==> Earlier(ps[i], ps[j])
  }

  lemma WithinInSequence(i: nat, ps: seq<Place>)
    requires InSequence(ps)
    ensures InSequence(Within(i, ps))
  {
    forall k, m | 0 <= k < m < |ps| ensures Earlier(Within(i, ps)[k], Within(i, ps)[m]) {
      assert ([i] + ps[k])[1..] == ps[k] && ([i] + ps[m])[1..] == ps[m];
    }
  }

  lemma {:induction false} PlacesInSequence(ds: seq<Decl>)
    ensures InSequence(Places(ds))
    decreases ds
  {
    if ds != [] {
      hide Earlier, Declares, IsTool, DeclAt;
      var n := |ds| - 1;
      var front := Places(ds[..n]);
      var last := if ds[n].kind == "namespace" then Within(n, Places(ds[n].children))
                  else if IsTool(ds[n]) then [[n]] else [];
      PlacesInSequence(ds[..n]);
      if ds[n].kind == "namespace" {
        PlacesInSequence(ds[n].children);
        WithinInSequence(n, Places(ds[n].children));
      }
      forall i, j | 0 <= i < |front| && 0 <= j < |last| ensures Earlier(front[i], last[j]) {
        assert front[i] in front;
        PlacesComplete(ds[..n], front[i]);
        EarlierNumber(ds[..n], front[i], last[j]);
      }
    }
  }

  lemma EarlierNumber(ds: seq<Decl>, p: Place, q: Place)
    requires Declares(ds, p) && q != [] && q[0] == |ds|
    ensures Earlier(p, q)
  {
  }

  /** A sequence of places in order meets an earlier place at an earlier index. */
  lemma EarlierIndex(ps: seq<Place>, k: nat, m: nat)
    requires InSequence(ps) && k < |ps| && m < |ps| && Earlier(ps[k], ps[m])
    ensures k < m
  {
    hide Earlier;
    if k == m { NotEarlier(ps[k]); } else if m < k { Irreflexive(ps[k], ps[m]); }
  }

  lemma {:induction false} NotEarlier(p: Place)
    ensures !Earlier(p, p)
  {
    if p != [] { NotEarlier(p[1..]); }
  }

  lemma {:induction false} Irreflexive(p: Place, q: Place)
    requires Earlier(p, q) && Earlier(q, p)
    ensures false
  {
    Irreflexive(p[1..], q[1..]);
  }

  /** Some declared tool goes by this name. */
  ghost predicate NamedAt(ds: seq<Decl>, p: Place, name: string) { Declares(ds, p) && NameAt(ds, "", p) == name }

  /** The tool at `p` is what its declaration makes it, and so is the entry it leaves. */
  ghost predicate Sent(ds: seq<Decl>, p: Place, tool: ChatTool, context: ToolContext) {
    && NamedAt(ds, p, tool.name) && ToolSays(DeclAt(ds, p).value, tool)
    && tool.name in context && EntrySays(DeclAt(ds, p).value, "", Spaces(ds, p), context[tool.name])
  }

  /**
   The tools sent upstream are those of the first declarations of each name, wherever in the namespaces they stand, in
   the order of declaration. Each has its declaration's name, description, parameters and strictness, its entry leads
   back to it, and no other name is in the context.
   */
  lemma DeclaredToolsSent(ds: seq<Decl>, chat: seq<ChatTool>, context: ToolContext) returns (at: seq<Place>)
    requires AllPrepared(Flatten(ds, "")) && Holds(chat, context, Firsts(Flatten(ds, "")))
    ensures |at| == |chat| && InSequence(at)
    ensures forall k :: 0 <= k < |chat| ==> Sent(ds, at[k], chat[k], context)
    ensures forall k, p :: 0 <= k < |chat| && Earlier(p, at[k]) ==> !NamedAt(ds, p, chat[k].name)
    ensures forall name :: name in context <==> exists p :: NamedAt(ds, p, name)
  {
    hide Firsts, Holds, AllPrepared, Flatten, SideBySide, Earlier, ToolSays, EntrySays, FirstPlaces, Places, DeclAt;
    var cs, ps := Flatten(ds, ""), Places(ds);
    CandidatesStand(ds, "");
    PlacesInSequence(ds);
    FirstWins(cs, chat, context);
    PlacesAre(ds, ps, cs);
    var first := FirstPlaces(cs);
    at := seq(|chat|, k requires 0 <= k < |chat| => ps[first[k]]);
    forall k | 0 <= k < |chat| ensures Sent(ds, at[k], chat[k], context) {
      SentAt(ds, ps, cs, first[k], chat[k], context);
    }
    forall k, p | 0 <= k < |chat| && Earlier(p, at[k]) ensures !NamedAt(ds, p, chat[k].name) {
      NotNamedBefore(ds, ps, cs, first[k], p, chat[k].name);
    }
    forall name ensures name in context <==> exists p :: NamedAt(ds, p, name) {
      NamesAre(ds, ps, cs, name);
    }
  }

  lemma PlacesAre(ds: seq<Decl>, ps: seq<Place>, cs: seq<Candidate>)
    requires SideBySide(ds, "", ps, cs)
    ensures |ps| == |cs|
  {
  }

  lemma SentAt(ds: seq<Decl>, ps: seq<Place>, cs: seq<Candidate>, i: nat, tool: ChatTool, context: ToolContext)
    requires SideBySide(ds, "", ps, cs) && ps == Places(ds) && i < |cs| && cs[i].tool == Some(tool)
    requires tool.name in context && context[tool.name] == cs[i].spec
    ensures Sent(ds, ps[i], tool, context)
  {
    hide ToolSays, EntrySays, Places, DeclAt;
    PlacesComplete(ds, ps[i]);
    assert ps[i] in ps;
  }

  lemma NotNamedBefore(ds: seq<Decl>, ps: seq<Place>, cs: seq<Candidate>, i: nat, p: Place, name: string)
    requires SideBySide(ds, "", ps, cs) && ps == Places(ds) && InSequence(ps)
    requires i < |cs| && !Named(cs[..i], name) && Earlier(p, ps[i])
    ensures !NamedAt(ds, p, name)
  {
    hide ToolSays, EntrySays, Places, DeclAt, Earlier, InSequence;
    if NamedAt(ds, p, name) {
      PlacesComplete(ds, p);
      var k :| 0 <= k < |ps| && ps[k] == p;
      EarlierIndex(ps, k, i);
    }
  }

  lemma NamesAre(ds: seq<Decl>, ps: seq<Place>, cs: seq<Candidate>, name: string)
    requires SideBySide(ds, "", ps, cs) && ps == Places(ds)
    ensures Named(cs, name) <==> exists p :: NamedAt(ds, p, name)
  {
    hide ToolSays, EntrySays, Places, DeclAt;
    if Named(cs, name) {
      var i :| 0 <= i < |cs| && cs[i].flat == name;
      PlacesComplete(ds, ps[i]);
      assert ps[i] in ps && NamedAt(ds, ps[i], name);
    }
    if p :| NamedAt(ds, p, name) {
      PlacesComplete(ds, p);
      var k :| 0 <= k < |ps| && ps[k] == p;
      assert cs[k].flat == name;
    }
  }
}
