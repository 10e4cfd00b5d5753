/**
 A converted history, message by message against the input items: which message stands for which item, and what it
 holds. (convert/request.go parseInput)
 */
module InputMessages {
  import opened Json
  import opened Protocol
  import opened Media
  import opened InputSpec
  import opened InputProofs
  import opened InputContents

  predicate IsOutput(it: InputItem) { it.OutputIn? }

  predicate IsCall(it: InputItem) { it.CallIn? }

  predicate IsToolMessage(m: Msg) { m.ResultMsg? }

  predicate IsMessage(m: Msg) { m.RegularMsg? }

  // ---------- the messages ----------

  function ToolMessages(msgs: seq<Msg>): seq<Msg> {
    if msgs == [] then []
    else
      var last := msgs[|msgs| - 1];
      ToolMessages(msgs[..|msgs| - 1]) + if IsToolMessage(last) then [last] else []
  }

  lemma ToolAppended(a: seq<Msg>, m: Msg)
    ensures ToolMessages(a + [m]) == if IsToolMessage(m) then ToolMessages(a) + [m] else ToolMessages(a)
  {
    assert (a + [m])[..|a|] == a;
  }

  lemma {:induction false} ToolsOfTraffic(msgs: seq<Msg>)
    ensures ToolMessages(Traffic(msgs)) == ToolMessages(msgs)
  {
    hide ToolMessages;
    if msgs != [] {
      var n := |msgs| - 1;
      ToolsOfTraffic(msgs[..n]);
      assert msgs == msgs[..n] + [msgs[n]];
      ToolAppended(msgs[..n], msgs[n]);
      ToolAppended(Traffic(msgs[..n]), msgs[n]);
      assert Traffic(msgs) == if msgs[n].IsTraffic() then Traffic(msgs[..n]) + [msgs[n]] else Traffic(msgs[..n]);
    }
  }

  lemma {:induction false} CallsOfTraffic(msgs: seq<Msg>)
    ensures FlatCalls(Traffic(msgs)) == FlatCalls(msgs)
  {
    hide FlatCalls;
    if msgs != [] {
      var n := |msgs| - 1;
      CallsOfTraffic(msgs[..n]);
      assert msgs == msgs[..n] + [msgs[n]];
      FlatAppended(msgs[..n], msgs[n]);
      FlatAppended(Traffic(msgs[..n]), msgs[n]);
      assert Traffic(msgs) == if msgs[n].IsTraffic() then Traffic(msgs[..n]) + [msgs[n]] else Traffic(msgs[..n]);
    }
  }

  /** `ys` are the elements at the places `at`. */
  ghost predicate Picked<T(!new)>(xs: seq<T>, at: seq<nat>, ys: seq<T>) {
    |at| == |ys| && forall i :: 0 <= i < |at| ==> at[i] < |xs| && xs[at[i]] == ys[i]
  }

  lemma PickedStep<T(!new)>(xs: seq<T>, x: T, at: seq<nat>, ys: seq<T>)
    requires Picked(xs, at, ys)
    ensures Picked(xs + [x], at, ys) && Picked(xs + [x], at + [|xs|], ys + [x])
  {
  }

  /** One more element, picked when it is wanted. */
  lemma PickedOneMore<T(!new)>(xs: seq<T>, x: T, at: seq<nat>, ys: seq<T>, ys1: seq<T>, at1: seq<nat>, want: T -> bool)
    requires PlacesOf(at, xs, want) && Picked(xs, at, ys)
    requires ys1 == if want(x) then ys + [x] else ys
    requires at1 == if want(x) then at + [|xs|] else at
    ensures PlacesOf(at1, xs + [x], want) && Picked(xs + [x], at1, ys1)
  {
    hide PlacesOf, Picked;
    PlacesStep(at, xs, x, want);
    PickedStep(xs, x, at, ys);
  }

  lemma {:induction false} ToolsPlaced(msgs: seq<Msg>) returns (to: seq<nat>)
    ensures PlacesOf(to, msgs, IsToolMessage) && Picked(msgs, to, ToolMessages(msgs))
  {
    hide PlacesOf, Picked, IsToolMessage;
    if msgs == [] {
      to := [];
      NothingPlaced<Msg>(IsToolMessage);
      assert ToolMessages(msgs) == [];
    } else {
      var n := |msgs| - 1;
      var front := ToolsPlaced(msgs[..n]);
      ToolAppended(msgs[..n], msgs[n]);
      to := if IsToolMessage(msgs[n]) then front + [n] else front;
      assert msgs == msgs[..n] + [msgs[n]];
      PickedOneMore(msgs[..n], msgs[n], front, ToolMessages(msgs[..n]), ToolMessages(msgs), to, IsToolMessage);
    }
  }

  lemma NothingPlaced<T(!new)>(want: T -> bool)
    ensures PlacesOf([], [], want) && Picked<T>([], [], [])
  {
  }

  lemma RegularAppended(a: seq<Msg>, m: Msg)
    ensures Regulars(a + [m]) == if IsMessage(m) then Regulars(a) + [m] else Regulars(a)
  {
    assert (a + [m])[..|a|] == a;
  }

  lemma {:induction false} RegularsPlaced(msgs: seq<Msg>) returns (to: seq<nat>)
    ensures PlacesOf(to, msgs, IsMessage) && Picked(msgs, to, Regulars(msgs))
  {
    hide PlacesOf, Picked;
    if msgs == [] {
      to := [];
      NothingPlaced<Msg>(IsMessage);
      assert Regulars(msgs) == [];
    } else {
      var n := |msgs| - 1;
      var front := RegularsPlaced(msgs[..n]);
      RegularAppended(msgs[..n], msgs[n]);
      to := if IsMessage(msgs[n]) then front + [n] else front;
      assert msgs == msgs[..n] + [msgs[n]];
      PickedOneMore(msgs[..n], msgs[n], front, Regulars(msgs[..n]), Regulars(msgs), to, IsMessage);
    }
  }

  // ---------- the items ----------

  ghost predicate ResultsFrom(c: Codec, items: seq<InputItem>, from: seq<nat>, results: seq<Msg>) {
    && |from| == |results|
    && forall i :: 0 <= i < |from| ==>
         from[i] < |items| && items[from[i]].OutputIn? && ResultSays(c, items[from[i]], results[i])
  }

  lemma ResultsStep(c: Codec, items: seq<InputItem>, it: InputItem, from: seq<nat>, results: seq<Msg>)
    requires ResultsFrom(c, items, from, results)
    ensures ResultsFrom(c, items + [it], from, results)
    ensures forall m :: it.OutputIn? && ResultSays(c, it, m) ==>
                ResultsFrom(c, items + [it], from + [|items|], results + [m])
  {
    hide ResultSays;
  }

  lemma {:induction false} ResultItems(s: Setting, items: seq<InputItem>, n: nat) returns (from: seq<nat>)
    requires n <= |items|
    ensures PlacesOf(from, items[..n], IsOutput)
    ensures ResultsFrom(s.codec, items[..n], from, ToolMessages(TrafficOf(s, items, n)))
  {
    hide PlacesOf, ResultsFrom, ResultSays, ResultOfItem, CallOfItem, ToolMessages;
    if n == 0 {
      from := [];
      NothingPlaced<InputItem>(IsOutput);
      NoResults(s.codec);
    } else {
      var it := items[n - 1];
      var front := ResultItems(s, items, n - 1);
      var before := TrafficOf(s, items, n - 1);
      from := if IsOutput(it) then front + [n - 1] else front;
      PlacesStep(front, items[..n - 1], it, IsOutput);
      ResultsStep(s.codec, items[..n - 1], it, front, ToolMessages(before));
      assert items[..n] == items[..n - 1] + [it];
      if it.OutputIn? {
        ResultIs(s.codec, it);
        ToolAppended(before, ResultOfItem(s.codec, it));
        ResultIsTraffic(s, it);
      } else if it.CallIn? {
        if Continues(items, n - 1) {
          TrafficEndsInCall(s, items, n - 1);
          JoinedTools(before, CallOfItem(s.codec, it));
        } else {
          ToolAppended(before, CallsMsg(RunReasoning(s, items, n - 1), [CallOfItem(s.codec, it)]));
        }
      }
    }
  }

  lemma NoResults(c: Codec)
    ensures ResultsFrom(c, [], [], ToolMessages([]))
  {
  }

  lemma JoinedTools(before: seq<Msg>, call: ToolCall)
    requires before != [] && before[|before| - 1].CallsMsg?
    ensures ToolMessages(Joined(before, call)) == ToolMessages(before)
  {
    var n := |before| - 1;
    assert before == before[..n] + [before[n]];
    ToolAppended(before[..n], before[n]);
    ToolAppended(before[..n], AddCall(before[n], call));
  }

  predicate IsReply(it: InputItem) { it.MessageIn? && it.role == "assistant" }

  /** The items that use up a replayed summary: assistant messages and the first calls of a run. */
  predicate UsesUp(items: seq<InputItem>, i: nat)
    requires i < |items|
  {
    IsReply(items[i]) || (items[i].CallIn? && (i == 0 || !items[i - 1].CallIn?))
  }

  /** Item `k` finds the summary of reasoning item `r`: nothing in between replaced it or used it up. */
  predicate Finds(items: seq<InputItem>, k: nat, r: nat)
    requires k < |items|
  {
    r < k && items[r].ReasoningIn? && forall i :: r < i < k ==> !items[i].ReasoningIn? && !UsesUp(items, i)
  }

  /** The summary an item finds; "" when it finds none. */
  ghost predicate SummaryTaken(items: seq<InputItem>, k: nat, text: string)
    requires k < |items|
  {
    && (forall r: nat :: Finds(items, k, r) ==> text == SummaryOf(items[r].summary))
    && ((forall r: nat :: !Finds(items, k, r)) ==> text == "")
  }

  ghost predicate MessageHolds(s: Source, items: seq<InputItem>, k: nat, m: Msg)
    requires k < |items| && IsRegular(items[k])
  {
    exists summary :: MessageSays(s, items[k], summary, m) && (IsReply(items[k]) ==> SummaryTaken(items, k, summary))
  }

  lemma TakesFinds(items: seq<InputItem>, k: nat)
    requires k < |items| && IsReply(items[k])
    ensures forall r: nat :: Takes(items, k, r) <==> Finds(items, k, r)
  {
    assert forall i: nat :: i < |items| ==> (Consumes(items, i) <==> UsesUp(items, i));
  }

  lemma MessageHeld(s: Source, items: seq<InputItem>, k: nat)
    requires k < |items| && IsRegular(items[k])
    ensures MessageHolds(s, items, k, RegularOfItem(s, items[k], PendingAt(items, k)))
  {
    hide MessageSays, RegularOfItem, SummaryText, Takes;
    MessageIs(s, items[k], PendingAt(items, k));
    if IsReply(items[k]) {
      PendingIsTaken(items, k, k);
      TakesFinds(items, k);
      forall r: nat | Finds(items, k, r) ensures PendingAt(items, k) == SummaryOf(items[r].summary) {
        SummaryIs(items[r].summary);
      }
      assert SummaryTaken(items, k, PendingAt(items, k));
    }
  }

  ghost predicate MessagesFrom(s: Source, items: seq<InputItem>, n: nat, from: seq<nat>, msgs: seq<Msg>)
    requires n <= |items|
  {
    && |from| == |msgs|
    && forall i :: 0 <= i < |from| ==>
         from[i] < n && IsRegular(items[from[i]]) && MessageHolds(s, items, from[i], msgs[i])
  }

  lemma NoMessagesFrom(s: Source, items: seq<InputItem>)
    ensures MessagesFrom(s, items, 0, [], [])
  {
  }

  lemma MessagesStep(s: Source, items: seq<InputItem>, n: nat, from: seq<nat>, msgs: seq<Msg>, m: Msg)
    requires n < |items| && MessagesFrom(s, items, n, from, msgs)
    ensures MessagesFrom(s, items, n + 1, from, msgs)
    ensures IsRegular(items[n]) && MessageHolds(s, items, n, m) ==>
              MessagesFrom(s, items, n + 1, from + [n], msgs + [m])
  {
    hide MessageHolds;
  }

  lemma {:induction false} RegularItems(s: Setting, items: seq<InputItem>, n: nat) returns (from: seq<nat>)
    requires n <= |items|
    ensures PlacesOf(from, items[..n], IsRegular)
    ensures MessagesFrom(s.source, items, n, from, RegularsOf(s, items, n))
  {
    hide PlacesOf, MessageHolds, MessagesFrom, RegularOfItem;
    if n == 0 {
      from := [];
      NothingPlaced<InputItem>(IsRegular);
      NoMessagesFrom(s.source, items);
    } else {
      var it, before := items[n - 1], RegularsOf(s, items, n - 1);
      var front := RegularItems(s, items, n - 1);
      from := if IsRegular(it) then front + [n - 1] else front;
      PlacesStep(front, items[..n - 1], it, IsRegular);
      assert items[..n] == items[..n - 1] + [it];
      if IsRegular(it) {
        MessageHeld(s.source, items, n - 1);
        MessagesStep(s.source, items, n - 1, front, before, RegularOfItem(s.source, it, PendingAt(items, n - 1)));
      } else {
        MessagesStep(s.source, items, n - 1, front, before, RegularMsg("", "", [], ""));
        assert RegularsOf(s, items, n) == before;
      }
    }
  }

  ghost predicate CallsFrom(c: Codec, items: seq<InputItem>, from: seq<nat>, calls: seq<ToolCall>) {
    && |from| == |calls|
    && forall i :: 0 <= i < |from| ==>
         from[i] < |items| && items[from[i]].CallIn? && CallSays(c, items[from[i]], calls[i])
  }

  lemma CallsStep(c: Codec, items: seq<InputItem>, k: nat, from: seq<nat>, calls: seq<ToolCall>, call: ToolCall)
    requires k < |items| && items[k].CallIn? && CallsFrom(c, items, from, calls) && CallSays(c, items[k], call)
    ensures CallsFrom(c, items, from + [k], calls + [call])
  {
    hide CallSays;
  }

  lemma NoCallsFrom(c: Codec, items: seq<InputItem>)
    ensures CallsFrom(c, items, [], [])
  {
  }

  lemma {:induction false} CallItems(c: Codec, items: seq<InputItem>, n: nat) returns (from: seq<nat>)
    requires n <= |items|
    ensures PlacesOf(from, items[..n], IsCall) && CallsFrom(c, items, from, CallsOfItems(c, items, n))
  {
    hide PlacesOf, CallSays, CallOfItem, CallsFrom;
    if n == 0 {
      from := [];
      NothingPlaced<InputItem>(IsCall);
      NoCallsFrom(c, items);
    } else {
      var front := CallItems(c, items, n - 1);
      from := if IsCall(items[n - 1]) then front + [n - 1] else front;
      PlacesStep(front, items[..n - 1], items[n - 1], IsCall);
      assert items[..n] == items[..n - 1] + [items[n - 1]];
      if items[n - 1].CallIn? {
        CallIs(c, items[n - 1]);
        CallsStep(c, items, n - 1, front, CallsOfItems(c, items, n - 1), CallOfItem(c, items[n - 1]));
      } else {
        assert CallsOfItems(c, items, n) == CallsOfItems(c, items, n - 1);
      }
    }
  }

  /** The media parts of some items one after the other. */
  ghost predicate MediaFrom(c: Codec, items: seq<InputItem>, parts: seq<ChatPart>) {
    if items == [] then parts == []
    else
      var n := |items| - 1;
      if items[n].OutputIn? then
        exists cut: nat ::
          cut <= |parts| && MediaFrom(c, items[..n], parts[..cut]) && MediaSays(c, items[n], parts[cut..])
      else MediaFrom(c, items[..n], parts)
  }

  lemma {:induction false} MediaItems(s: Setting, items: seq<InputItem>, n: nat)
    requires n <= |items|
    ensures MediaFrom(s.codec, items[..n], MediaOf(s, items, n))
  {
    hide MediaSays, MediaOfItem;
    if n > 0 {
      MediaItems(s, items, n - 1);
      assert items[..n][..n - 1] == items[..n - 1];
      if items[n - 1].OutputIn? {
        var before, more := MediaOf(s, items, n - 1), MediaOfItem(s.codec, items[n - 1]);
        MediaIs(s.codec, items[n - 1]);
        assert (before + more)[..|before|] == before && (before + more)[|before|..] == more;
      } else {
        assert MediaOf(s, items, n) == MediaOf(s, items, n - 1);
      }
    }
  }

  // ---------- the whole history ----------

  lemma Converted(s: Setting, items: seq<InputItem>)
    requires Parsed(s, ItemsInput(items)).Ok?
    ensures FirstError(items, 0).None?
  {
  }

  /**
   The tool messages are the results of the outputs, one each and in order: each carries the call id of its item, and
   its text, the texts of its parts, what is left of it without its images, or the replayed search.
   */
  lemma ResultsHold(s: Setting, items: seq<InputItem>) returns (from: seq<nat>, to: seq<nat>)
    requires Parsed(s, ItemsInput(items)).Ok?
    ensures var msgs := Parsed(s, ItemsInput(items)).value;
            && PlacesOf(from, items, IsOutput) && PlacesOf(to, msgs, IsToolMessage) && |from| == |to|
            && forall i :: 0 <= i < |from| ==>
                 && from[i] < |items| && items[from[i]].OutputIn? && to[i] < |msgs|
                 && ResultSays(s.codec, items[from[i]], msgs[to[i]])
  {
    hide Parsed, PlacesOf, ResultSays, ToolMessages, Traffic, TrafficOf, Regulars, MediaParts;
    Converted(s, items);
    Conservation(s, items);
    var msgs := Parsed(s, ItemsInput(items)).value;
    assert items[..|items|] == items;
    from := ResultItems(s, items, |items|);
    to := ToolsPlaced(msgs);
    ToolsOfTraffic(msgs);
  }

  /**
   The regular messages are those of the regular items, one each and in order: each has its item's role and content,
   and the assistant's have their cached reasoning or the summary they take.
   */
  lemma MessagesHold(s: Setting, items: seq<InputItem>) returns (from: seq<nat>, to: seq<nat>)
    requires Parsed(s, ItemsInput(items)).Ok?
    ensures var msgs := Parsed(s, ItemsInput(items)).value;
            && PlacesOf(from, items, IsRegular) && PlacesOf(to, msgs, IsMessage) && |from| == |to|
            && forall i :: 0 <= i < |from| ==>
                 && from[i] < |items| && IsRegular(items[from[i]]) && to[i] < |msgs|
                 && MessageHolds(s.source, items, from[i], msgs[to[i]])
  {
    hide Parsed, PlacesOf, MessageHolds, Traffic, Regulars, RegularsOf, MediaParts;
    Converted(s, items);
    Conservation(s, items);
    var msgs := Parsed(s, ItemsInput(items)).value;
    assert items[..|items|] == items;
    from := RegularItems(s, items, |items|);
    to := RegularsPlaced(msgs);
  }

  /**
   The calls of all calls messages, one after the other, are those of the call items, one each and in order: id, name
   and arguments by kind. The images of all media messages are those of the outputs, each group under its label.
   */
  lemma CallsAndMediaHold(s: Setting, items: seq<InputItem>) returns (from: seq<nat>)
    requires Parsed(s, ItemsInput(items)).Ok?
    ensures var msgs := Parsed(s, ItemsInput(items)).value;
            && PlacesOf(from, items, IsCall) && CallsFrom(s.codec, items, from, FlatCalls(msgs))
            && MediaFrom(s.codec, items, MediaParts(msgs))
  {
    hide Parsed, PlacesOf, CallsFrom, MediaFrom, Traffic, Regulars, RegularsOf, MediaParts, MediaOf,
         FlatCalls;
    Converted(s, items);
    Conservation(s, items);
    var msgs := Parsed(s, ItemsInput(items)).value;
    assert items[..|items|] == items;
    from := CallItems(s.codec, items, |items|);
    EveryCallKept(s, items, |items|);
    CallsOfTraffic(msgs);
    MediaItems(s, items, |items|);
  }

  // ---------- where images go ----------

  /** A media message shows something and comes right after a call or a result, before any held-back message. */
  ghost predicate MediaInPlace(msgs: seq<Msg>) {
    forall i :: 0 <= i < |msgs| && msgs[i].MediaMsg? ==> i > 0 && msgs[i - 1].IsTraffic() && msgs[i].parts != []
  }

  ghost predicate MediaReady(p: Progress) {
    MediaInPlace(p.out) && (p.media != [] ==> p.out != [] && p.out[|p.out| - 1].IsTraffic())
  }

  lemma InPlaceMore(a: seq<Msg>, b: seq<Msg>)
    requires MediaInPlace(a) && AllRegular(b)
    ensures MediaInPlace(a + b)
  {
    assert forall i :: |a| <= i < |a + b| ==> (a + b)[i].RegularMsg?;
  }

  lemma FlushInPlace(p: Progress)
    requires MediaReady(p) && AllRegular(p.deferred)
    ensures MediaReady(FlushDeferred(p)) && FlushDeferred(p).media == [] && FlushDeferred(p).deferred == []
    ensures MediaReady(FlushMedia(p)) && FlushMedia(p).media == [] && FlushMedia(p).deferred == p.deferred
  {
    InPlaceMore(FlushMedia(p).out, p.deferred);
  }

  lemma CallInPlace(s: Setting, outputs: set<string>, p: Progress, it: InputItem)
    requires it.CallIn? && MediaReady(p) && (p.joining ==> p.out != [] && p.out[|p.out| - 1].CallsMsg?)
    ensures MediaReady(StepCall(s, outputs, p, it))
  {
    hide CallOfItem;
  }

  lemma OutputInPlace(s: Setting, p: Progress, it: InputItem)
    requires it.OutputIn? && MediaReady(p) && AllRegular(p.deferred)
    ensures MediaReady(StepOutput(s, p, it))
  {
    hide ResultOfItem, MediaOfItem, FlushDeferred;
    ResultIsTraffic(s, it);
    var q := p.(media := p.media + MediaOfItem(s.codec, it), out := p.out + [ResultOfItem(s.codec, it)],
                awaiting := p.awaiting - {it.callID});
    assert MediaReady(q);
    FlushInPlace(q);
  }

  lemma RegularInPlace(s: Setting, p: Progress, it: InputItem)
    requires IsRegular(it) && MediaReady(p) && Settled(p)
    ensures MediaReady(StepRegular(s, p, it))
  {
    hide RegularOfItem;
    var msg := RegularOfItem(s.source, it, p.pending);
    RegularIsRegular(s.source, it, p.pending);
    InPlaceMore(p.out, [msg]);
  }

  lemma {:induction false} AfterInPlace(s: Setting, items: seq<InputItem>, n: nat)
    requires n <= |items|
    ensures MediaReady(After(s, items, n)) && AllRegular(After(s, items, n).deferred)
  {
    hide Orderly, MediaReady, Conserved, StepCall, StepOutput, StepRegular;
    AfterOrderly(s, items, n);
    DeferredRegular(s, items, n);
    if n == 0 {
      StartInPlace();
    } else {
      var p, it := After(s, items, n - 1), items[n - 1];
      AfterInPlace(s, items, n - 1);
      AfterHeld(s, items, n - 1);
      NotJoining(p);
      if it.CallIn? {
        CallInPlace(s, OutputIDs(items), p, it);
      } else if it.OutputIn? {
        OutputInPlace(s, p.(joining := false), it);
      } else if IsRegular(it) {
        RegularInPlace(s, p.(joining := false), it);
      } else {
        OnlyPending(p);
      }
    }
  }

  lemma DeferredRegular(s: Setting, items: seq<InputItem>, n: nat)
    requires n <= |items| && Orderly(OutputIDs(items), After(s, items, n))
    ensures AllRegular(After(s, items, n).deferred)
  {
  }

  lemma StartInPlace()
    ensures MediaReady(START)
  {
  }

  lemma NotJoining(p: Progress)
    ensures MediaReady(p.(joining := false)) <==> MediaReady(p)
  {
  }

  lemma OnlyPending(p: Progress)
    ensures forall pending :: MediaReady(p.(joining := false, pending := pending)) <==> MediaReady(p)
  {
  }

  /** The images of tool outputs come right after the batch of calls and results they belong to. */
  lemma MediaFollowsTraffic(s: Setting, items: seq<InputItem>)
    requires Parsed(s, ItemsInput(items)).Ok?
    ensures MediaInPlace(Parsed(s, ItemsInput(items)).value)
  {
    hide After, AllRegular, MediaInPlace, FlushDeferred, FlushMedia;
    AfterInPlace(s, items, |items|);
    FlushInPlace(After(s, items, |items|));
    FlushInPlace(FlushMedia(After(s, items, |items|)));
  }
}
