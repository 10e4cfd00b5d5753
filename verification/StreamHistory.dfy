/**
 What a sequence of upstream signals amounts to, read off the signals alone: the texts, the tool calls put
 back together from their fragments, and whether a call kept its identity once it was announced.
 */
module StreamHistory {
  import opened Common
  import opened Protocol
  import opened Tools
  import opened StreamSpec
  import opened StreamClient

  function Fragments(sigs: seq<Signal>): seq<ToolDelta> {
    if sigs == [] then []
    else
      var last := sigs[|sigs| - 1];
      Fragments(sigs[..|sigs| - 1]) + if last.ToolPiece? then [last.delta] else []
  }

  function ReasoningOf(sigs: seq<Signal>): string {
    if sigs == [] then ""
    else
      var last := sigs[|sigs| - 1];
      ReasoningOf(sigs[..|sigs| - 1]) + if last.ReasoningPiece? then last.text else ""
  }

  function TextOf(sigs: seq<Signal>): string {
    if sigs == [] then ""
    else
      var last := sigs[|sigs| - 1];
      TextOf(sigs[..|sigs| - 1]) + if last.TextPiece? then last.text else ""
  }

  function FinishOf(sigs: seq<Signal>): string {
    if sigs == [] then ""
    else
      var last := sigs[|sigs| - 1];
      if last.SetFinish? then last.reason else FinishOf(sigs[..|sigs| - 1])
  }

  function UsageOf(sigs: seq<Signal>): Option<Usage> {
    if sigs == [] then None
    else
      var last := sigs[|sigs| - 1];
      if last.SetUsage? then Some(last.usage) else UsageOf(sigs[..|sigs| - 1])
  }

  /** The finish reason known when the message item is closed: at the first tool fragment, or at the end. */
  function FinishAtTools(sigs: seq<Signal>): string {
    if sigs == [] then ""
    else
      var before := sigs[..|sigs| - 1];
      if Fragments(before) != [] then FinishAtTools(before) else FinishOf(sigs)
  }

  /** Tool indices in order of first appearance. */
  function Order(frags: seq<ToolDelta>): seq<int> {
    if frags == [] then []
    else
      var before := Order(frags[..|frags| - 1]);
      var idx := IndexOf(frags[|frags| - 1]);
      if idx in before then before else before + [idx]
  }

  /**
   One tool call put together from the fragments of its index. `announced` is its identity from the moment both
   a name and an id are known; `steady` says every later fragment that carried arguments still resolved to a
   function exactly when the announced item is one.
   */
  datatype Call = Call(id: string, name: string, args: string, announced: Option<Item>, steady: bool)

  const NO_CALL := Call("", "", "", None, true)

  function ToolIdentity(e: Env, callID: string, name: string): Item {
    Identity(ToolCallItem(e, NoID, Completed, callID, name, ""))
  }

  function Extended(e: Env, c: Call, d: ToolDelta): Call {
    var id := if d.id != "" then d.id else c.id;
    var name := if d.name != "" then d.name else c.name;
    var args := c.args + d.args;
    if c.announced.Some? then
      Call(id, name, args, c.announced,
           c.steady && (d.args == "" || (KindOf(e, name) == Function <==> c.announced.value.FunctionCall?)))
    else
      Call(id, name, args, if id != "" && name != "" then Some(ToolIdentity(e, id, name)) else None, true)
  }

  function CallOf(e: Env, frags: seq<ToolDelta>, idx: int): Call {
    if frags == [] then NO_CALL
    else
      var c := CallOf(e, frags[..|frags| - 1], idx);
      var d := frags[|frags| - 1];
      if IndexOf(d) == idx then Extended(e, c, d) else c
  }

  /** The id the call ends up with. */
  function FinalID(e: Env, c: Call, idx: int): string {
    if c.id == "" then SyntheticCallID(e, idx) else c.id
  }

  /** The call was announced as what it turned out to be, and its argument deltas were the right ones. */
  predicate Stable(e: Env, frags: seq<ToolDelta>, idx: int) {
    var c := CallOf(e, frags, idx);
    c.announced.Some? ==> c.steady && c.announced.value == ToolIdentity(e, c.id, c.name)
  }

  /** No text or reasoning piece is empty, as the handlers are only called for non-empty deltas. */
  predicate Proper(sigs: seq<Signal>) {
    forall i :: 0 <= i < |sigs| ==>
      (sigs[i].ReasoningPiece? ==> sigs[i].text != "") && (sigs[i].TextPiece? ==> sigs[i].text != "")
  }

  /** Reasoning comes before text and tools, text before tools. */
  predicate InOrder(sigs: seq<Signal>) {
    forall i, j :: 0 <= i < j < |sigs| ==>
      && (sigs[j].ReasoningPiece? ==> !sigs[i].TextPiece? && !sigs[i].ToolPiece?)
      && (sigs[j].TextPiece? ==> !sigs[i].ToolPiece?)
  }

  lemma {:induction false} TextShows(sigs: seq<Signal>)
    requires Proper(sigs)
    ensures TextOf(sigs) == "" <==> forall i :: 0 <= i < |sigs| ==> !sigs[i].TextPiece?
  {
    if sigs != [] {
      var before := sigs[..|sigs| - 1];
      TextShows(before);
      assert forall i :: 0 <= i < |before| ==> sigs[i] == before[i];
    }
  }

  lemma {:induction false} ReasoningShows(sigs: seq<Signal>)
    requires Proper(sigs)
    ensures ReasoningOf(sigs) == "" <==> forall i :: 0 <= i < |sigs| ==> !sigs[i].ReasoningPiece?
  {
    if sigs != [] {
      var before := sigs[..|sigs| - 1];
      ReasoningShows(before);
      assert forall i :: 0 <= i < |before| ==> sigs[i] == before[i];
    }
  }

  lemma {:induction false} FragmentsShow(sigs: seq<Signal>)
    ensures Fragments(sigs) == [] <==> forall i :: 0 <= i < |sigs| ==> !sigs[i].ToolPiece?
  {
    if sigs != [] {
      var before := sigs[..|sigs| - 1];
      FragmentsShow(before);
      assert forall i :: 0 <= i < |before| ==> sigs[i] == before[i];
    }
  }

  lemma PiecesShow(sigs: seq<Signal>)
    requires Proper(sigs)
    ensures TextOf(sigs) == "" <==> forall i :: 0 <= i < |sigs| ==> !sigs[i].TextPiece?
    ensures ReasoningOf(sigs) == "" <==> forall i :: 0 <= i < |sigs| ==> !sigs[i].ReasoningPiece?
    ensures Fragments(sigs) == [] <==> forall i :: 0 <= i < |sigs| ==> !sigs[i].ToolPiece?
  {
    TextShows(sigs);
    ReasoningShows(sigs);
    FragmentsShow(sigs);
  }

  /** Order preservation, one signal at a time. */
  lemma InOrderStep(sigs: seq<Signal>)
    requires Proper(sigs) && sigs != []
    ensures InOrder(sigs) <==>
            && InOrder(sigs[..|sigs| - 1])
            && (sigs[|sigs| - 1].ReasoningPiece? ==>
                TextOf(sigs[..|sigs| - 1]) == "" && Fragments(sigs[..|sigs| - 1]) == [])
            && (sigs[|sigs| - 1].TextPiece? ==> Fragments(sigs[..|sigs| - 1]) == [])
  {
    var n := |sigs| - 1;
    var before := sigs[..n];
    PiecesShow(before);
    assert forall i :: 0 <= i < n ==> sigs[i] == before[i];
  }

  lemma {:induction false} OrderFacts(frags: seq<ToolDelta>)
    ensures forall j, k :: 0 <= j < k < |Order(frags)| ==> Order(frags)[j] != Order(frags)[k]
    ensures forall d :: d in frags ==> IndexOf(d) in Order(frags)
    ensures forall idx :: idx in Order(frags) ==> exists d :: d in frags && IndexOf(d) == idx
  {
    if frags != [] {
      var before := frags[..|frags| - 1];
      OrderFacts(before);
      assert frags == before + [frags[|frags| - 1]];
      forall idx | idx in Order(frags) ensures exists d :: d in frags && IndexOf(d) == idx {
        if idx in Order(before) {
          var d :| d in before && IndexOf(d) == idx;
          assert d in frags;
        } else {
          assert frags[|frags| - 1] in frags;
        }
      }
    }
  }

  /** An index without fragments has no call. */
  lemma {:induction false} NoFragmentsNoCall(e: Env, frags: seq<ToolDelta>, idx: int)
    requires idx !in Order(frags)
    ensures CallOf(e, frags, idx) == NO_CALL
  {
    if frags != [] {
      NoFragmentsNoCall(e, frags[..|frags| - 1], idx);
    }
  }
}
