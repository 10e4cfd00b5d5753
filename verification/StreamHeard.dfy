/**
 The main results about streams once more, said of the upstream's lines and chunks and of the fields of what the client
 gets, with nothing in between. (convert/stream.go)
 */
module StreamHeard {
  import opened Common
  import opened Protocol
  import opened StreamSpec
  import opened StreamClient
  import opened StreamHistory
  import opened StreamCompletion
  import opened StreamIntake
  import opened StreamRuns
  import Response
  import T = StreamTheorems
  import U = StreamTurn
  import CrossTurn

  /** The message the chunks of a stream add up to; a call without an id has the synthetic one. */
  function Heard(e: Env, turns: seq<Read>): Reply {
    var n := |turns|;
    var frags := FragmentsHeard(turns, n);
    Reply(ReasoningHeard(turns, n), TextHeard(turns, n), "", CallsOf(e, frags, Order(frags)))
  }

  lemma HeardIsReassembled(e: Env, turns: seq<Read>)
    ensures Reassembled(e, Received(turns).signals) == Heard(e, turns)
  {
    hide Received, CallsOf, Order;
    IntakeIs(turns);
  }

  // ---------- when a stream completes ----------

  /** One way at most to leave the loop. */
  lemma OneStop(turns: seq<Read>, a: Stop, b: Stop)
    requires StopsWith(turns, a) && StopsWith(turns, b)
    ensures a == b
  {
    hide Stops;
    if i :| 0 <= i < |turns| && StopsAt(turns, i, a) {
      if j :| 0 <= j < |turns| && StopsAt(turns, j, b) {
        SameStop(turns, i, j, a, b);
      }
    }
  }

  lemma SameStop(turns: seq<Read>, i: nat, j: nat, a: Stop, b: Stop)
    requires i < |turns| && j < |turns| && StopsAt(turns, i, a) && StopsAt(turns, j, b)
    ensures a == b
  {
    hide Stops;
    assert i == j;
  }

  /** Every tool call is named by one of its fragments. */
  predicate CallsNamed(frags: seq<ToolDelta>) {
    forall i :: 0 <= i < |frags| ==> Named(frags, if frags[i].index.Some? then frags[i].index.value else 0)
  }

  predicate Named(frags: seq<ToolDelta>, idx: int) {
    exists j :: 0 <= j < |frags| && OfCall(frags[j], idx) && frags[j].name != ""
  }

  /** The fragment is one of call number `idx`; without a number it is one of call 0. */
  predicate OfCall(d: ToolDelta, idx: int) { if d.index.Some? then d.index.value == idx else idx == 0 }

  lemma {:induction false} NamedMeans(e: Env, frags: seq<ToolDelta>, idx: int)
    ensures CallOf(e, frags, idx).name != "" <==> Named(frags, idx)
  {
    hide ToolIdentity, KindOf;
    if frags != [] {
      var n := |frags| - 1;
      NamedMeans(e, frags[..n], idx);
      if j :| 0 <= j < n && OfCall(frags[..n][j], idx) && frags[..n][j].name != "" { assert frags[j] == frags[..n][j]; }
      if j :| 0 <= j < |frags| && OfCall(frags[j], idx) && frags[j].name != "" {
        if j < n { assert frags[..n][j] == frags[j]; }
      }
    }
  }

  lemma AllNamedMeans(e: Env, frags: seq<ToolDelta>)
    ensures AllNamed(e, frags) <==> CallsNamed(frags)
  {
    hide CallOf, Order, Named;
    OrderFacts(frags);
    if AllNamed(e, frags) {
      forall i | 0 <= i < |frags| ensures Named(frags, IndexOf(frags[i])) {
        assert frags[i] in frags;
        var k :| 0 <= k < |Order(frags)| && Order(frags)[k] == IndexOf(frags[i]);
        NamedMeans(e, frags, Order(frags)[k]);
      }
    }
    if CallsNamed(frags) {
      forall k | 0 <= k < |Order(frags)| ensures CallOf(e, frags, Order(frags)[k]).name != "" {
        OrderFrom(frags, k);
        var i :| 0 <= i < |frags| && IndexOf(frags[i]) == Order(frags)[k];
        NamedMeans(e, frags, Order(frags)[k]);
      }
    }
  }

  lemma {:induction false} OrderFrom(frags: seq<ToolDelta>, k: nat)
    requires k < |Order(frags)|
    ensures exists i :: 0 <= i < |frags| && IndexOf(frags[i]) == Order(frags)[k]
  {
    var n := |frags| - 1;
    if k < |Order(frags[..n])| {
      OrderFrom(frags[..n], k);
      var i :| 0 <= i < n && IndexOf(frags[..n][i]) == Order(frags)[k];
      assert IndexOf(frags[i]) == Order(frags)[k];
    } else {
      assert IndexOf(frags[n]) == Order(frags)[k];
    }
  }

  /** What the upstream must send for a stream to complete. */
  ghost predicate SendsAnswer(turns: seq<Read>) {
    var n := |turns|;
    && (StopsWith(turns, StopEnd(true)) || (StopsWith(turns, StopEnd(false)) && FinishHeard(turns, n) != ""))
    && ChunksInOrder(turns, n)
    && !(ReasoningHeard(turns, n) != "" && TextHeard(turns, n) == "" && FragmentsHeard(turns, n) == [])
    && CallsNamed(FragmentsHeard(turns, n))
  }

  /**
   Exactly which upstream streams complete: those that end with [DONE], or at the end of the file after a finish reason,
   whose chunks bring reasoning, text and tool calls in that order and not reasoning alone, and name every tool call.
   */
  lemma CompletesIff(e: Env, turns: seq<Read>)
    requires e.limit.None?
    ensures T.Completed(e, turns) <==> SendsAnswer(turns)
  {
    hide T.Completed, Received, StopsWith, FinishHeard, ChunksInOrder, ReasoningHeard, TextHeard, FragmentsHeard,
         AllNamed, CallsNamed, InOrder, Fragments, ReasoningOf, TextOf, FinishOf, FinishAtTools, UsageHeard,
         FinishAtToolsHeard;
    IntakeIs(turns);
    T.CompletesIff(e, turns);
    AllNamedMeans(e, FragmentsHeard(turns, |turns|));
    var stop := Received(turns).stop;
    if StopsWith(turns, StopEnd(true)) { OneStop(turns, stop, StopEnd(true)); }
    if StopsWith(turns, StopEnd(false)) { OneStop(turns, stop, StopEnd(false)); }
  }

  // ---------- what it completes with ----------

  /** A length limit and a content filter make an answer incomplete. */
  predicate CutShort(reason: string) { reason == "length" || reason == "content_filter" }

  /** An output list is, ids and a missing execution apart, that of ChatToResponses on a whole message. */
  ghost predicate OutputOf(e: Env, output: seq<Option<Item>>, m: Reply, status: Status) {
    var whole := Response.Output(e.codec, e.tools, "", m, status);
    && |output| == |whole|
    && forall i: nat :: i < |whole| ==> output[i].Some? && WithoutID(output[i].value) == WithoutID(Defaulted(whole[i]))
  }

  /**
   Streaming refines non-streaming. A completed stream ends with response.incomplete if the last finish reason is
   length or content_filter, else with response.completed; the final response says so, carries the last usage the
   upstream sent, and lists what ChatToResponses lists for the message the chunks add up to, which the client has
   already rebuilt. The message item has the status known when it was closed.
   */
  lemma StreamingRefines(e: Env, turns: seq<Read>)
    requires e.limit.None? && T.Completed(e, turns)
    ensures var resp, trace, n := T.FinalResponse(e, turns), Run(e, turns).0.out.trace, |turns|;
            && Response.SaysStatus(resp.status, resp.incompleteReason, FinishHeard(turns, n))
            && Response.SaysUsage(resp.usage, UsageHeard(turns, n))
            && OutputOf(e, resp.output, Heard(e, turns),
                        if CutShort(FinishAtToolsHeard(turns, n)) then Incomplete else Completed)
            && Rebuilds(T.Ending(e, turns).slots, resp.output)
            && trace != [] && trace[|trace| - 1].body == if resp.status == Incomplete then IncompleteEvent(resp)
                                                         else CompletedEvent(resp)
  {
    hide Run, Received, Delivers, Rebuilds, Reassembled, Heard, FinishHeard, UsageHeard, FinishAtToolsHeard, FinishOf,
         UsageOf, FinishAtTools, StopsWith, ChunksInOrder, InOrder, ReasoningHeard, TextHeard, FragmentsHeard, Replay;
    IntakeIs(turns);
    HeardIsReassembled(e, turns);
    T.StreamingRefines(e, turns);
    DeliversOutput(e, T.FinalResponse(e, turns).output, Received(turns).signals);
    LastEvent(Run(e, turns).0.out.trace);
  }

  lemma DeliversOutput(e: Env, output: seq<Option<Item>>, sigs: seq<Signal>)
    requires Delivers(e, output, sigs)
    ensures OutputOf(e, output, Reassembled(e, sigs), if CutShort(FinishAtTools(sigs)) then Incomplete else Completed)
  {
    hide Reassembled, FinishAtTools, WithoutID, Defaulted;
    forall i: nat | i < |output|
      ensures output[i].Some? && WithoutID(output[i].value) == WithoutID(Defaulted(Expected(e, sigs)[i]))
    {
      assert DeliversAt(e, output, sigs, i);
    }
  }

  lemma LastEvent(trace: seq<Event>)
    requires Replay(trace).Following? && Replay(trace).ending.Finished?
    ensures var resp := Replay(trace).ending.response;
            && trace != []
            && trace[|trace| - 1].body
               == if resp.status == Incomplete then IncompleteEvent(resp) else CompletedEvent(resp)
  {
    hide Rebuilds, MayAdd, Advance;
  }

  /** The chunks of a stream are a message cut into deltas in some way. */
  ghost predicate Cuts(e: Env, turns: seq<Read>, m: Reply) {
    var n := |turns|;
    var frags := FragmentsHeard(turns, n);
    && ChunksInOrder(turns, n) && m.refusal == ""
    && ReasoningHeard(turns, n) == m.reasoning && TextHeard(turns, n) == m.content
    && CallsOf(e, frags, Order(frags)) == m.toolCalls
  }

  /**
   However a message is cut into chunks, and whether they end with [DONE] or with a finish reason, the stream
   completes, with the status and usage of the whole message and the output of ChatToResponses on it, ids apart. With
   tool calls the message item keeps the status known at the first of them.
   */
  lemma CutAnyWay(e: Env, m: Reply, turns: seq<Read>)
    requires e.limit.None? && ExecutionsSet(e.tools) && Cuts(e, turns, m)
    requires m.reasoning != "" ==> m.content != "" || m.toolCalls != []
    requires forall i :: 0 <= i < |m.toolCalls| ==> m.toolCalls[i].name != ""
    requires StopsWith(turns, StopEnd(true)) || (StopsWith(turns, StopEnd(false)) && FinishHeard(turns, |turns|) != "")
    ensures T.Completed(e, turns)
    ensures var resp, n := T.FinalResponse(e, turns), |turns|;
            var status := if CutShort(FinishAtToolsHeard(turns, n)) then Incomplete else Completed;
            var whole := Response.Output(e.codec, e.tools, "", m, status);
            && Response.SaysStatus(resp.status, resp.incompleteReason, FinishHeard(turns, n))
            && Response.SaysUsage(resp.usage, UsageHeard(turns, n))
            && |resp.output| == |whole| && (forall i: nat :: i < |whole| ==> T.SameItem(resp.output[i], whole[i]))
            && (m.toolCalls == [] ==> FinishAtToolsHeard(turns, n) == FinishHeard(turns, n))
  {
    hide Run, Received, Fragments, Order, CallOf, Rebuilds, FinishAtTools, InOrder, FinishHeard, UsageHeard,
         FinishAtToolsHeard, FinishOf, UsageOf, StopsWith, ChunksInOrder, ReasoningHeard, TextHeard, FragmentsHeard,
         ReasoningOf, TextOf, ExecutionsSet;
    var sigs := Received(turns).signals;
    IntakeIs(turns);
    var stop := Received(turns).stop;
    if StopsWith(turns, StopEnd(true)) { OneStop(turns, stop, StopEnd(true)); }
    if StopsWith(turns, StopEnd(false)) { OneStop(turns, stop, StopEnd(false)); }
    T.CutAnyWay(e, m, FinishHeard(turns, |turns|), turns);
    StreamingRefines(e, turns);
    if m.toolCalls == [] {
      T.CutNames(e, m, FinishOf(sigs), sigs);
      NoToolsAtAll(turns, |turns|);
    }
  }

  lemma {:induction false} NoToolsAtAll(turns: seq<Read>, n: nat)
    requires FragmentsHeard(turns, n) == []
    ensures FinishAtToolsHeard(turns, n) == FinishHeard(turns, n)
  {
  }

  /** What a completed stream hands over for saving: the last usage, all its call ids, its reasoning and text. */
  lemma SavesWhatItHeard(e: Env, turns: seq<Read>)
    requires e.limit.None? && T.Completed(e, turns)
    ensures var r, m := Run(e, turns).1.result, Heard(e, turns);
            && r.usage == UsageHeard(turns, |turns|) && r.reasoningText == m.reasoning && r.contentText == m.content
            && |r.toolCallIDs| == |m.toolCalls|
            && forall i :: 0 <= i < |m.toolCalls| ==> r.toolCallIDs[i] == m.toolCalls[i].id != ""
  {
    hide Run, Received, Reassembled, Heard, T.Completed, CrossTurn.NonEmptyIDs;
    IntakeIs(turns);
    HeardIsReassembled(e, turns);
    U.SavesWhatItSent(e, turns);
    forall i | 0 <= i < |Heard(e, turns).toolCalls| ensures Heard(e, turns).toolCalls[i].id != "" {
      U.IDsGiven(e, Received(turns).signals, i);
    }
    AllIDs(Heard(e, turns).toolCalls);
  }

  lemma {:induction false} AllIDs(calls: seq<ToolCall>)
    requires forall i :: 0 <= i < |calls| ==> calls[i].id != ""
    ensures |CrossTurn.NonEmptyIDs(calls)| == |calls|
    ensures forall i :: 0 <= i < |calls| ==> CrossTurn.NonEmptyIDs(calls)[i] == calls[i].id
  {
    if calls != [] { AllIDs(calls[..|calls| - 1]); }
  }

  // ---------- why it does not complete ----------

  /** The last event of a trace tells the client why the stream failed. */
  ghost predicate EndsFailed(trace: seq<Event>, cause: Cause) {
    trace != [] && trace[|trace| - 1].body == FailedEvent(cause)
  }

  lemma FailedLast(trace: seq<Event>, cause: Cause)
    requires Replay(trace).Following? && Replay(trace).ending == Failed(cause)
    ensures EndsFailed(trace, cause)
  {
    hide Rebuilds, MayAdd, Advance;
  }

  /** The stream got as far as its end with something that could be an answer's. */
  ghost predicate EndsProperly(turns: seq<Read>) {
    StopsWith(turns, StopEnd(true)) || (StopsWith(turns, StopEnd(false)) && FinishHeard(turns, |turns|) != "")
  }

  predicate ReasoningAlone(turns: seq<Read>) {
    var n := |turns|;
    ReasoningHeard(turns, n) != "" && TextHeard(turns, n) == "" && FragmentsHeard(turns, n) == []
  }

  /** What may go wrong with a stream, and what it is then said to have failed for. */
  ghost predicate FailsFor(turns: seq<Read>, cause: Cause) {
    if !ChunksInOrder(turns, |turns|) then
      cause.Conversion? && cause.reason in {ReasoningReopened, ReasoningLate, TextAfterTools}
    else
      match cause
      case Upstream(m) => StopsWith(turns, StopUpstream(m))
      case ReadFailure(m) => StopsWith(turns, StopBroken(m))
      case Conversion(ClosedEarly) => StopsWith(turns, StopEnd(false)) && FinishHeard(turns, |turns|) == ""
      case Conversion(ReasoningOnly) => EndsProperly(turns) && ReasoningAlone(turns)
      case Conversion(ToolWithoutName(_)) =>
        EndsProperly(turns) && !ReasoningAlone(turns) && !CallsNamed(FragmentsHeard(turns, |turns|))
      case _ => false
  }

  /** A stream that neither completes nor is cancelled tells the client last of all what it failed for. */
  lemma FailuresSay(e: Env, turns: seq<Read>) returns (cause: Cause)
    requires e.limit.None? && !SendsAnswer(turns)
    requires ChunksInOrder(turns, |turns|) ==> !StopsWith(turns, StopCancelled)
    ensures EndsFailed(Run(e, turns).0.out.trace, cause) && FailsFor(turns, cause)
  {
    hide Run, Received, StopsWith, FinishHeard, ChunksInOrder, ReasoningHeard, TextHeard, FragmentsHeard, AllNamed,
         CallsNamed, InOrder, Fragments, ReasoningOf, TextOf, FinishOf, FinishAtTools, UsageHeard, FinishAtToolsHeard,
         Replay, EndsFailed, Completes;
    IntakeIs(turns);
    T.RunOutcomes(e, turns);
    AllNamedMeans(e, FragmentsHeard(turns, |turns|));
    var s, f := Run(e, turns).0, Received(turns);
    cause := Replay(s.out.trace).ending.cause;
    FailedLast(s.out.trace, cause);
  }

  // ---------- the calls ----------

  /** The arguments of a call are its fragments' one after the other. */
  function ArgsHeard(frags: seq<ToolDelta>, idx: int, n: nat): string
    requires n <= |frags|
  {
    if n == 0 then ""
    else ArgsHeard(frags, idx, n - 1) + if OfCall(frags[n - 1], idx) then frags[n - 1].args else ""
  }

  /** A call of the reassembled message: its arguments, and the last id and name its fragments give. */
  lemma {:induction false} CallHeard(e: Env, frags: seq<ToolDelta>, idx: int)
    ensures var c := CallOf(e, frags, idx);
            && c.args == ArgsHeard(frags, idx, |frags|)
            && (forall j :: LastWith(frags, idx, j, true) ==> c.id == frags[j].id)
            && (forall j :: LastWith(frags, idx, j, false) ==> c.name == frags[j].name)
  {
    hide ToolIdentity, KindOf;
    if frags != [] {
      var n := |frags| - 1;
      CallHeard(e, frags[..n], idx);
      ArgsPrefix(frags, idx, n);
      forall j, id | LastWith(frags, idx, j, id)
        ensures if id then CallOf(e, frags, idx).id == frags[j].id else CallOf(e, frags, idx).name == frags[j].name
      {
        if j < n { assert LastWith(frags[..n], idx, j, id); }
      }
    }
  }

  /** Fragment `j` is the last one of index `idx` with an id, or with a name. */
  predicate LastWith(frags: seq<ToolDelta>, idx: int, j: int, id: bool) {
    && 0 <= j < |frags| && OfCall(frags[j], idx) && (if id then frags[j].id else frags[j].name) != ""
    && forall k :: j < k < |frags| && OfCall(frags[k], idx) ==> (if id then frags[k].id else frags[k].name) == ""
  }

  lemma {:induction false} ArgsPrefix(frags: seq<ToolDelta>, idx: int, n: nat)
    requires n < |frags|
    ensures forall k: nat :: k <= n ==> ArgsHeard(frags[..n], idx, k) == ArgsHeard(frags, idx, k)
  {
    forall k: nat | k <= n ensures ArgsHeard(frags[..n], idx, k) == ArgsHeard(frags, idx, k) {
      ArgsSame(frags, idx, n, k);
    }
  }

  lemma {:induction false} ArgsSame(frags: seq<ToolDelta>, idx: int, n: nat, k: nat)
    requires k <= n < |frags|
    ensures ArgsHeard(frags[..n], idx, k) == ArgsHeard(frags, idx, k)
  {
    if k > 0 { ArgsSame(frags, idx, n, k - 1); }
  }

  /** None of the fragments of the call has an id, or a name. */
  predicate NoneWith(frags: seq<ToolDelta>, idx: int, id: bool) {
    forall k :: 0 <= k < |frags| && OfCall(frags[k], idx) ==> (if id then frags[k].id else frags[k].name) == ""
  }

  lemma {:induction false} NothingHeard(e: Env, frags: seq<ToolDelta>, idx: int)
    ensures NoneWith(frags, idx, true) ==> CallOf(e, frags, idx).id == ""
    ensures NoneWith(frags, idx, false) ==> CallOf(e, frags, idx).name == ""
  {
    hide ToolIdentity, KindOf;
    if frags != [] {
      var n := |frags| - 1;
      NothingHeard(e, frags[..n], idx);
      assert forall k :: 0 <= k < n ==> frags[..n][k] == frags[k];
    }
  }

  /** A whole call: the fragments' arguments one after the other, the last name given, and the last id given, or else
      one made from the response's id and the call's number. */
  ghost predicate CallAddsUp(e: Env, frags: seq<ToolDelta>, idx: int, call: ToolCall) {
    && call.arguments == ArgsHeard(frags, idx, |frags|)
    && (forall j :: LastWith(frags, idx, j, true) ==> call.id == frags[j].id)
    && (NoneWith(frags, idx, true) ==> call.id == SyntheticCallID(e, idx))
    && (forall j :: LastWith(frags, idx, j, false) ==> call.name == frags[j].name)
    && (NoneWith(frags, idx, false) ==> call.name == "")
  }

  lemma CallIs(e: Env, frags: seq<ToolDelta>, idx: int)
    ensures var c := CallOf(e, frags, idx);
            CallAddsUp(e, frags, idx, ToolCall(FinalID(e, c, idx), c.name, c.args))
  {
    hide CallOf, ArgsHeard, NoneWith, OfCall, SyntheticCallID;
    CallHeard(e, frags, idx);
    NothingHeard(e, frags, idx);
  }

  /** Fragment `i` is the first one of call number `idx`. */
  predicate FirstOf(frags: seq<ToolDelta>, idx: int, i: nat) {
    i < |frags| && OfCall(frags[i], idx) && forall j :: 0 <= j < i ==> !OfCall(frags[j], idx)
  }

  /** The numbers of the calls, in the order of their first fragments. */
  ghost predicate InOrderOfFirsts(frags: seq<ToolDelta>, idxs: seq<int>, firsts: seq<nat>) {
    && |firsts| == |idxs|
    && (forall k :: 0 <= k < |idxs| ==> FirstOf(frags, idxs[k], firsts[k]))
    && (forall k, m :: 0 <= k < m < |firsts| ==> firsts[k] < firsts[m])
    && forall i :: 0 <= i < |frags| ==> Numbered(frags[i], idxs)
  }

  predicate Numbered(d: ToolDelta, idxs: seq<int>) { exists k :: 0 <= k < |idxs| && OfCall(d, idxs[k]) }

  lemma {:induction false} OrderIsFirsts(frags: seq<ToolDelta>) returns (firsts: seq<nat>)
    ensures InOrderOfFirsts(frags, Order(frags), firsts)
  {
    hide OfCall, IndexOf, InOrderOfFirsts;
    if frags == [] {
      firsts := [];
      NoFirsts();
    } else {
      var n := |frags| - 1;
      var before := OrderIsFirsts(frags[..n]);
      firsts := if IndexOf(frags[n]) in Order(frags[..n]) then before else before + [n];
      FirstsMore(frags[..n], frags[n], Order(frags[..n]), before);
      assert frags == frags[..n] + [frags[n]];
    }
  }

  lemma NoFirsts()
    ensures InOrderOfFirsts([], [], [])
  {
  }

  lemma NumberOf(d: ToolDelta)
    ensures forall idx :: OfCall(d, idx) <==> idx == IndexOf(d)
  {
  }

  lemma FirstsMore(frags: seq<ToolDelta>, d: ToolDelta, idxs: seq<int>, firsts: seq<nat>)
    requires InOrderOfFirsts(frags, idxs, firsts)
    ensures IndexOf(d) in idxs ==> InOrderOfFirsts(frags + [d], idxs, firsts)
    ensures IndexOf(d) !in idxs ==> InOrderOfFirsts(frags + [d], idxs + [IndexOf(d)], firsts + [|frags|])
  {
    hide OfCall, IndexOf, FirstOf, Numbered;
    var all, idx := frags + [d], IndexOf(d);
    forall k | 0 <= k < |idxs| ensures FirstOf(all, idxs[k], firsts[k]) && firsts[k] < |frags| {
      FirstKept(frags, d, idxs[k], firsts[k]);
    }
    forall i | 0 <= i < |frags| ensures Numbered(all[i], idxs) && Numbered(all[i], idxs + [idx]) {
      assert Numbered(frags[i], idxs);
      NumberedMore(frags[i], idxs, idx);
    }
    NumberedMore(d, idxs, idx);
    if idx !in idxs { FirstNew(frags, d, idxs); }
  }

  lemma FirstKept(frags: seq<ToolDelta>, d: ToolDelta, idx: int, i: nat)
    requires FirstOf(frags, idx, i)
    ensures FirstOf(frags + [d], idx, i) && i < |frags|
  {
    hide OfCall;
  }

  lemma NumberedMore(d: ToolDelta, idxs: seq<int>, idx: int)
    ensures Numbered(d, idxs) ==> Numbered(d, idxs + [idx])
    ensures idx == IndexOf(d) ==> Numbered(d, idxs + [idx]) && (idx in idxs ==> Numbered(d, idxs))
  {
    var all := idxs + [idx];
    assert all[|idxs|] == idx && forall k :: 0 <= k < |idxs| ==> all[k] == idxs[k];
  }

  lemma FirstNew(frags: seq<ToolDelta>, d: ToolDelta, idxs: seq<int>)
    requires IndexOf(d) !in idxs && forall i :: 0 <= i < |frags| ==> Numbered(frags[i], idxs)
    ensures FirstOf(frags + [d], IndexOf(d), |frags|)
  {
    hide IndexOf, OfCall;
    NumberOf(d);
    forall j | 0 <= j < |frags| ensures !OfCall(frags[j], IndexOf(d)) {
      NumberOf(frags[j]);
      assert Numbered(frags[j], idxs);
    }
  }

  /** The calls of the message a stream adds up to: one for each number, in the order of their first fragments. */
  lemma CallsHeard(e: Env, turns: seq<Read>) returns (idxs: seq<int>, firsts: seq<nat>)
    ensures var frags, calls := FragmentsHeard(turns, |turns|), Heard(e, turns).toolCalls;
            && InOrderOfFirsts(frags, idxs, firsts) && |calls| == |idxs|
            && forall k :: 0 <= k < |calls| ==> CallAddsUp(e, frags, idxs[k], calls[k])
  {
    hide FragmentsHeard, ReasoningHeard, TextHeard, InOrderOfFirsts, CallAddsUp, Order, CallOf, FinalID;
    var frags := FragmentsHeard(turns, |turns|);
    idxs := Order(frags);
    firsts := OrderIsFirsts(frags);
    SameCount(frags, idxs, firsts);
    forall k | 0 <= k < |idxs| ensures CallAddsUp(e, frags, idxs[k], Heard(e, turns).toolCalls[k]) {
      CallIs(e, frags, idxs[k]);
    }
  }

  lemma SameCount(frags: seq<ToolDelta>, idxs: seq<int>, firsts: seq<nat>)
    requires InOrderOfFirsts(frags, idxs, firsts)
    ensures |idxs| == |firsts|
  {
  }
}
