/**
 What parseInput does to a history as a whole: nothing is lost, duplicated or reordered within its kind, tool
 results stay next to their calls, and without anything in between the conversion is the plain one.
 */
module InputProofs {
  import opened Common
  import opened Json
  import opened Protocol
  import opened Media
  import opened InputSpec

  // ---------- the kinds of messages in a conversation ----------

  function Traffic(msgs: seq<Msg>): seq<Msg> {
    if msgs == [] then []
    else
      var last := msgs[|msgs| - 1];
      Traffic(msgs[..|msgs| - 1]) + if last.IsTraffic() then [last] else []
  }

  function Regulars(msgs: seq<Msg>): seq<Msg> {
    if msgs == [] then []
    else
      var last := msgs[|msgs| - 1];
      Regulars(msgs[..|msgs| - 1]) + if last.RegularMsg? then [last] else []
  }

  function MediaParts(msgs: seq<Msg>): seq<ChatPart> {
    if msgs == [] then []
    else
      var last := msgs[|msgs| - 1];
      MediaParts(msgs[..|msgs| - 1]) + if last.MediaMsg? then last.parts else []
  }

  lemma {:induction false} TrafficConcat(a: seq<Msg>, b: seq<Msg>)
    ensures Traffic(a + b) == Traffic(a) + Traffic(b)
  {
    if b == [] {
      assert a + b == a;
    } else {
      assert (a + b)[..|a + b| - 1] == a + b[..|b| - 1];
      TrafficConcat(a, b[..|b| - 1]);
    }
  }

  lemma {:induction false} RegularsConcat(a: seq<Msg>, b: seq<Msg>)
    ensures Regulars(a + b) == Regulars(a) + Regulars(b)
  {
    if b == [] {
      assert a + b == a;
    } else {
      assert (a + b)[..|a + b| - 1] == a + b[..|b| - 1];
      RegularsConcat(a, b[..|b| - 1]);
    }
  }

  lemma {:induction false} MediaConcat(a: seq<Msg>, b: seq<Msg>)
    ensures MediaParts(a + b) == MediaParts(a) + MediaParts(b)
  {
    if b == [] {
      assert a + b == a;
    } else {
      assert (a + b)[..|a + b| - 1] == a + b[..|b| - 1];
      MediaConcat(a, b[..|b| - 1]);
    }
  }

  lemma OneMessage(m: Msg)
    ensures Traffic([m]) == (if m.IsTraffic() then [m] else [])
    ensures Regulars([m]) == (if m.RegularMsg? then [m] else [])
    ensures MediaParts([m]) == (if m.MediaMsg? then m.parts else [])
  {
    assert [m][..0] == [];
  }

  lemma Appended(a: seq<Msg>, m: Msg)
    ensures Traffic(a + [m]) == Traffic(a) + (if m.IsTraffic() then [m] else [])
    ensures Regulars(a + [m]) == Regulars(a) + (if m.RegularMsg? then [m] else [])
    ensures MediaParts(a + [m]) == MediaParts(a) + (if m.MediaMsg? then m.parts else [])
  {
    TrafficConcat(a, [m]);
    RegularsConcat(a, [m]);
    MediaConcat(a, [m]);
    OneMessage(m);
  }

  // ---------- the same, read off the input items ----------

  /** A call item continues the message of the call item right before it. */
  predicate Continues(items: seq<InputItem>, i: nat)
    requires i < |items|
  {
    i > 0 && items[i].CallIn? && items[i - 1].CallIn?
  }

  /** The items whose message takes the reasoning pending at that point: assistant messages and first calls of a run. */
  predicate Consumes(items: seq<InputItem>, i: nat)
    requires i < |items|
  {
    (items[i].CallIn? && !Continues(items, i)) || IsAssistant(items[i])
  }

  /** The summary replayed last and not consumed before item `n`. */
  function PendingAt(items: seq<InputItem>, n: nat): string
    requires n <= |items|
  {
    if n == 0 then ""
    else if items[n - 1].ReasoningIn? then SummaryText(items[n - 1].summary)
    else if Consumes(items, n - 1) then ""
    else PendingAt(items, n - 1)
  }

  /** The reasoning of the message a run of calls starts with: the cached original, else the pending summary. */
  function RunReasoning(s: Setting, items: seq<InputItem>, i: nat): string
    requires i < |items| && items[i].CallIn?
  {
    Fallback(LookupCall(s.source, CallOfItem(s.codec, items[i]).id), PendingAt(items, i))
  }

  function Joined(msgs: seq<Msg>, call: ToolCall): seq<Msg> {
    if msgs == [] then [] else msgs[..|msgs| - 1] + [AddCall(msgs[|msgs| - 1], call)]
  }

  /** Calls, grouped by adjacency, and results of the first `n` items, in order. */
  function TrafficOf(s: Setting, items: seq<InputItem>, n: nat): seq<Msg>
    requires n <= |items|
  {
    if n == 0 then []
    else
      var before := TrafficOf(s, items, n - 1);
      var it := items[n - 1];
      if it.CallIn? then
        var call := CallOfItem(s.codec, it);
        if Continues(items, n - 1) then Joined(before, call)
            else before + [CallsMsg(RunReasoning(s, items, n - 1), [call])]
      else if it.OutputIn? then before + [ResultOfItem(s.codec, it)]
      else before
  }

  function RegularsOf(s: Setting, items: seq<InputItem>, n: nat): seq<Msg>
    requires n <= |items|
  {
    if n == 0 then []
    else
      RegularsOf(s, items, n - 1)
      + if IsRegular(items[n - 1]) then [RegularOfItem(s.source, items[n - 1], PendingAt(items, n - 1))] else []
  }

  function MediaOf(s: Setting, items: seq<InputItem>, n: nat): seq<ChatPart>
    requires n <= |items|
  {
    if n == 0 then []
    else MediaOf(s, items, n - 1) + if items[n - 1].OutputIn? then MediaOfItem(s.codec, items[n - 1]) else []
  }

  predicate Answers(it: InputItem, c: string) { it.OutputIn? && it.callID == c }

  predicate Calls(s: Setting, it: InputItem, c: string) { it.CallIn? && CallOfItem(s.codec, it).id == c }

  /** The call `c` made by item `h` has no output among the items from there up to `n`. */
  predicate OpenCall(s: Setting, items: seq<InputItem>, h: nat, n: nat, c: string)
    requires n <= |items|
  {
    h < n && Calls(s, items[h], c) && forall k :: h < k < n ==> !Answers(items[k], c)
  }

  /** Some call of `c` before item `n` is still awaiting an output that the input holds somewhere. */
  ghost predicate Awaited(s: Setting, items: seq<InputItem>, n: nat, c: string)
    requires n <= |items|
  {
    c in OutputIDs(items) && exists h: nat :: OpenCall(s, items, h, n, c)
  }

  // ---------- the invariant ----------

  ghost predicate Settled(p: Progress) {
    p.awaiting == {} ==> p.deferred == [] && p.media == []
  }

  ghost predicate Conserved(s: Setting, items: seq<InputItem>, n: nat, p: Progress)
    requires n <= |items|
  {
    && Traffic(p.out) == TrafficOf(s, items, n)
    && Regulars(p.out) + p.deferred == RegularsOf(s, items, n)
    && MediaParts(p.out) + p.media == MediaOf(s, items, n)
    && Regulars(p.deferred) == p.deferred && Traffic(p.deferred) == [] && MediaParts(p.deferred) == []
  }

  ghost predicate Tracked(items: seq<InputItem>, n: nat, p: Progress)
    requires n <= |items|
  {
    && p.pending == PendingAt(items, n)
    && (p.joining <==> n > 0 && items[n - 1].CallIn?)
    && (p.joining ==> p.out != [] && p.out[|p.out| - 1].CallsMsg?)
  }

  lemma AwaitedStep(s: Setting, items: seq<InputItem>, n: nat, c: string)
    requires n < |items|
    ensures Awaited(s, items, n + 1, c) <==>
            c in OutputIDs(items) && (Calls(s, items[n], c) || (Awaited(s, items, n, c) && !Answers(items[n], c)))
  {
    if c in OutputIDs(items) {
      if Calls(s, items[n], c) {
        assert OpenCall(s, items, n, n + 1, c);
      } else if Awaited(s, items, n, c) && !Answers(items[n], c) {
        var h: nat :| OpenCall(s, items, h, n, c);
        assert OpenCall(s, items, h, n + 1, c);
      }
      if Awaited(s, items, n + 1, c) {
        var h: nat :| OpenCall(s, items, h, n + 1, c);
        if h < n { assert OpenCall(s, items, h, n, c); }
      }
    }
  }

  /** The awaiting set is exactly the calls still open at that point of the input. */
  lemma {:induction false} AwaitingIsAwaited(s: Setting, items: seq<InputItem>, n: nat)
    requires n <= |items|
    ensures forall c :: c in After(s, items, n).awaiting <==> Awaited(s, items, n, c)
  {
    if n > 0 {
      AwaitingIsAwaited(s, items, n - 1);
      AwaitingStep(s, OutputIDs(items), After(s, items, n - 1), items[n - 1]);
      forall c ensures c in After(s, items, n).awaiting <==> Awaited(s, items, n, c) {
        AwaitedStep(s, items, n - 1, c);
      }
    }
  }

  lemma AwaitingStep(s: Setting, outputs: set<string>, p: Progress, it: InputItem)
    ensures forall c :: c in Step(s, outputs, p, it).awaiting <==>
                        (c in outputs && Calls(s, it, c)) || (c in p.awaiting && !Answers(it, c))
  {
    hide CallOfItem, ResultOfItem, MediaOfItem, RegularOfItem;
  }

  // ---------- conservation, item by item ----------

  ghost predicate Held(s: Setting, items: seq<InputItem>, n: nat, p: Progress)
    requires n <= |items|
  {
    Settled(p) && Conserved(s, items, n, p) && Tracked(items, n, p)
  }

  lemma NoMessages()
    ensures Traffic([]) == [] && Regulars([]) == [] && MediaParts([]) == []
  {
  }

  lemma FlushMediaKeeps(p: Progress)
    ensures var q := FlushMedia(p);
            && q == p.(out := q.out, media := [])
            && Traffic(q.out) == Traffic(p.out) && Regulars(q.out) == Regulars(p.out)
            && MediaParts(q.out) == MediaParts(p.out) + p.media
  {
    Appended(p.out, MediaMsg(p.media));
  }

  /** Flushing what is held back keeps everything, and leaves nothing held back. */
  lemma FlushKeeps(p: Progress)
    requires Regulars(p.deferred) == p.deferred && Traffic(p.deferred) == [] && MediaParts(p.deferred) == []
    ensures var q := FlushDeferred(p);
            && q == p.(out := q.out, media := [], deferred := [])
            && Traffic(q.out) == Traffic(p.out) && Regulars(q.out) == Regulars(p.out) + p.deferred
            && MediaParts(q.out) == MediaParts(p.out) + p.media
            && Regulars(q.deferred) == q.deferred && Traffic(q.deferred) == [] && MediaParts(q.deferred) == []
  {
    hide FlushMedia, Traffic, Regulars, MediaParts;
    FlushMediaKeeps(p);
    TrafficConcat(FlushMedia(p).out, p.deferred);
    RegularsConcat(FlushMedia(p).out, p.deferred);
    MediaConcat(FlushMedia(p).out, p.deferred);
    NoMessages();
  }

  lemma JoinKeeps(out: seq<Msg>, call: ToolCall)
    requires out != [] && out[|out| - 1].CallsMsg?
    ensures var last := |out| - 1;
            var out1 := out[last := AddCall(out[last], call)];
            && Traffic(out1) == Joined(Traffic(out), call) && Regulars(out1) == Regulars(out)
            && MediaParts(out1) == MediaParts(out)
  {
    var last := |out| - 1;
    var head := out[..last];
    var m := AddCall(out[last], call);
    assert out[last := m] == head + [m] && out == head + [out[last]];
    Appended(head, m);
    Appended(head, out[last]);
  }

  lemma CallKeeps(s: Setting, items: seq<InputItem>, n: nat, outputs: set<string>, p: Progress)
    requires n < |items| && items[n].CallIn? && Held(s, items, n, p)
    ensures Held(s, items, n + 1, StepCall(s, outputs, p, items[n]))
  {
    hide CallOfItem, Traffic, Regulars, MediaParts, ResultOfItem, RegularOfItem, MediaOfItem;
    var call := CallOfItem(s.codec, items[n]);
    if p.joining {
      JoinKeeps(p.out, call);
    } else {
      Appended(p.out, CallsMsg(RunReasoning(s, items, n), [call]));
    }
  }

  lemma OutputKeeps(s: Setting, items: seq<InputItem>, n: nat, p: Progress)
    requires n < |items| && items[n].OutputIn? && Held(s, items, n, p)
    ensures Held(s, items, n + 1, StepOutput(s, p.(joining := false), items[n]))
  {
    hide Conserved, Traffic, Regulars, MediaParts, ResultOfItem, MediaOfItem, FlushDeferred, SummaryText;
    var it := items[n];
    var q := p.(joining := false, media := p.media + MediaOfItem(s.codec, it),
                out := p.out + [ResultOfItem(s.codec, it)],
                awaiting := p.awaiting - {it.callID});
    OutputConserved(s, items, n, p, q);
    ConservedFlush(s, items, n + 1, q);
  }

  lemma OutputConserved(s: Setting, items: seq<InputItem>, n: nat, p: Progress, q: Progress)
    requires n < |items| && items[n].OutputIn? && Conserved(s, items, n, p)
    requires q.out == p.out + [ResultOfItem(s.codec, items[n])] && q.deferred == p.deferred
    requires q.media == p.media + MediaOfItem(s.codec, items[n])
    ensures Conserved(s, items, n + 1, q)
  {
    hide Traffic, Regulars, MediaParts, ResultOfItem, RegularOfItem, MediaOfItem;
    ResultIsTraffic(s, items[n]);
    Appended(p.out, ResultOfItem(s.codec, items[n]));
  }

  lemma ConservedFlush(s: Setting, items: seq<InputItem>, n: nat, q: Progress)
    requires n <= |items| && Conserved(s, items, n, q)
    ensures var f := FlushDeferred(q);
            Conserved(s, items, n, f) && f == q.(out := f.out, media := [], deferred := [])
  {
    hide Traffic, Regulars, MediaParts, FlushDeferred, TrafficOf, RegularsOf, MediaOf;
    FlushKeeps(q);
  }

  lemma ResultIsTraffic(s: Setting, it: InputItem)
    requires it.OutputIn?
    ensures ResultOfItem(s.codec, it).ResultMsg? && ResultOfItem(s.codec, it).callID == it.callID
  {
  }

  lemma RegularIsRegular(s: Source, it: InputItem, pending: string)
    requires IsRegular(it)
    ensures RegularOfItem(s, it, pending).RegularMsg?
  {
  }

  lemma RegularKeeps(s: Setting, items: seq<InputItem>, n: nat, p: Progress)
    requires n < |items| && IsRegular(items[n]) && Held(s, items, n, p)
    ensures Held(s, items, n + 1, StepRegular(s, p.(joining := false), items[n]))
  {
    hide CallOfItem, Traffic, Regulars, MediaParts, ResultOfItem, RegularOfItem, MediaOfItem, FlushMedia;
    var msg := RegularOfItem(s.source, items[n], p.pending);
    RegularIsRegular(s.source, items[n], p.pending);
    var q := p.(joining := false);
    FlushMediaKeeps(q);
    Appended(FlushMedia(q).out, msg);
    Appended(p.deferred, msg);
    assert Regulars(p.out) + (p.deferred + [msg]) == Regulars(p.out) + p.deferred + [msg];
  }

  /** One item keeps the invariant. */
  lemma StepKeeps(s: Setting, items: seq<InputItem>, n: nat, outputs: set<string>, p: Progress)
    requires n < |items| && Held(s, items, n, p)
    ensures Held(s, items, n + 1, Step(s, outputs, p, items[n]))
  {
    hide StepCall, StepOutput, StepRegular, CallOfItem, RegularOfItem, MediaOfItem, ResultOfItem, Traffic, Regulars,
         MediaParts;
    if items[n].CallIn? {
      CallKeeps(s, items, n, outputs, p);
    } else if items[n].OutputIn? {
      OutputKeeps(s, items, n, p);
    } else if IsRegular(items[n]) {
      RegularKeeps(s, items, n, p);
    }
  }

  lemma {:induction false} AfterHeld(s: Setting, items: seq<InputItem>, n: nat)
    requires n <= |items|
    ensures Held(s, items, n, After(s, items, n))
  {
    hide Step;
    if n > 0 {
      AfterHeld(s, items, n - 1);
      StepKeeps(s, items, n - 1, OutputIDs(items), After(s, items, n - 1));
    }
  }

  /**
   Conservation and order. The tool calls and results, the regular messages and the extracted media parts of the
   converted history are each exactly those of the input, in input order.
   */
  lemma Conservation(s: Setting, items: seq<InputItem>)
    requires FirstError(items, 0).None?
    ensures Parsed(s, ItemsInput(items)).Ok?
    ensures var msgs := Parsed(s, ItemsInput(items)).value;
            && Traffic(msgs) == TrafficOf(s, items, |items|)
            && Regulars(msgs) == RegularsOf(s, items, |items|)
            && MediaParts(msgs) == MediaOf(s, items, |items|)
  {
    hide After, FlushMedia, FlushDeferred, Traffic, Regulars, MediaParts;
    AfterHeld(s, items, |items|);
    var p := After(s, items, |items|);
    FlushMediaKeeps(p);
    FlushKeeps(FlushMedia(p));
  }

  /** An item of unknown type, or a message without a role. */
  predicate IsBad(it: InputItem) { it.UnknownIn? || (it.MessageIn? && it.role == "") }

  predicate IsFirstBad(items: seq<InputItem>, i: nat) {
    i < |items| && IsBad(items[i]) && forall j :: 0 <= j < i ==> !IsBad(items[j])
  }

  /** The conversion fails exactly on an item of unknown type or a message without a role, and names the first one. */
  lemma FailsOnFirstBadItem(s: Setting, items: seq<InputItem>)
    ensures Parsed(s, ItemsInput(items)).Ok? <==> forall i :: 0 <= i < |items| ==> !IsBad(items[i])
    ensures forall i: nat :: IsFirstBad(items, i) ==>
              Parsed(s, ItemsInput(items))
              == Err(if items[i].UnknownIn? then Unsupported(items[i].itemType, i) else MissingRole(i))
  {
    hide Messages;
    assert forall i :: 0 <= i < |items| ==> (ItemError(items[i], i).Some? <==> IsBad(items[i]));
    forall i: nat | IsFirstBad(items, i)
      ensures FirstError(items, 0) == ItemError(items[i], i)
    {
      FirstIs(items, 0, i);
    }
  }

  lemma {:induction false} FirstIs(items: seq<InputItem>, n: nat, i: nat)
    requires n <= i < |items| && ItemError(items[i], i).Some?
    requires forall j :: n <= j < i ==> ItemError(items[j], j).None?
    ensures FirstError(items, n) == ItemError(items[i], i)
    decreases i - n
  {
    if n < i { FirstIs(items, n + 1, i); }
  }

  /** The calls of the messages, flattened. */
  function FlatCalls(msgs: seq<Msg>): seq<ToolCall> {
    if msgs == [] then []
    else
      var last := msgs[|msgs| - 1];
      FlatCalls(msgs[..|msgs| - 1]) + if last.CallsMsg? then last.calls else []
  }

  function CallsOfItems(c: Codec, items: seq<InputItem>, n: nat): seq<ToolCall>
    requires n <= |items|
  {
    if n == 0 then []
    else CallsOfItems(c, items, n - 1) + if items[n - 1].CallIn? then [CallOfItem(c, items[n - 1])] else []
  }

  /** A call item with a call right before it finds that call's message last in the traffic. */
  lemma {:induction false} TrafficEndsInCall(s: Setting, items: seq<InputItem>, n: nat)
    requires 0 < n <= |items| && items[n - 1].CallIn?
    ensures var t := TrafficOf(s, items, n); t != [] && t[|t| - 1].CallsMsg?
  {
    hide CallOfItem;
    if n > 1 && items[n - 2].CallIn? { TrafficEndsInCall(s, items, n - 1); }
  }

  lemma FlatAppended(a: seq<Msg>, m: Msg)
    ensures FlatCalls(a + [m]) == FlatCalls(a) + (if m.CallsMsg? then m.calls else [])
  {
    assert (a + [m])[..|a|] == a;
  }

  /** Grouping loses no call: flattened, the calls are those of the call items, each once and in order. */
  lemma {:induction false} EveryCallKept(s: Setting, items: seq<InputItem>, n: nat)
    requires n <= |items|
    ensures FlatCalls(TrafficOf(s, items, n)) == CallsOfItems(s.codec, items, n)
  {
    hide CallOfItem, FlatCalls;
    if n == 0 {
      NoFlatCalls();
    } else {
      EveryCallKept(s, items, n - 1);
      var before := TrafficOf(s, items, n - 1);
      var it := items[n - 1];
      if it.CallIn? {
        var call := CallOfItem(s.codec, it);
        if Continues(items, n - 1) {
          TrafficEndsInCall(s, items, n - 1);
          var last := |before| - 1;
          assert before == before[..last] + [before[last]];
          FlatAppended(before[..last], before[last]);
          FlatAppended(before[..last], AddCall(before[last], call));
          assert FlatCalls(before[..last]) + (before[last].calls + [call])
              == FlatCalls(before[..last]) + before[last].calls + [call];
        } else {
          FlatAppended(before, CallsMsg(RunReasoning(s, items, n - 1), [call]));
        }
      } else if it.OutputIn? {
        ResultIsTraffic(s, it);
        FlatAppended(before, ResultOfItem(s.codec, it));
      }
    }
  }

  lemma NoFlatCalls()
    ensures FlatCalls([]) == []
  {
  }

  // ---------- adjacency ----------

  predicate HasCall(m: Msg, c: string) {
    m.CallsMsg? && exists k :: 0 <= k < |m.calls| && m.calls[k].id == c
  }

  predicate IsResult(m: Msg, c: string) { m.ResultMsg? && m.callID == c }

  /** `c` is called at message `i` and has no result among the messages after it and before `j`. */
  predicate Unanswered(msgs: seq<Msg>, i: nat, j: nat, c: string) {
    i < j <= |msgs| && HasCall(msgs[i], c) && forall k :: i < k < j ==> !IsResult(msgs[k], c)
  }

  predicate OnlyTraffic(msgs: seq<Msg>, i: nat, j: nat) {
    forall k :: i < k < j && k < |msgs| ==> msgs[k].IsTraffic()
  }

  /** Between a call and its first result afterwards there are only calls and results. */
  ghost predicate Adjacent(msgs: seq<Msg>) {
    forall i: nat, j: nat, c: string :: c != "" && j < |msgs| && Unanswered(msgs, i, j, c) && IsResult(msgs[j], c) ==>
        OnlyTraffic(msgs, i, j)
  }

  /** A call without a result so far is still awaited, and only traffic follows it. */
  ghost predicate Guarded(outputs: set<string>, p: Progress) {
    forall i: nat, c: string :: c in outputs && Unanswered(p.out, i, |p.out|, c) ==>
        c in p.awaiting && OnlyTraffic(p.out, i, |p.out|)
  }

  ghost predicate AllRegular(msgs: seq<Msg>) {
    forall k :: 0 <= k < |msgs| ==> msgs[k].RegularMsg?
  }

  /** Results carry the call ids of outputs. */
  ghost predicate KnownResults(outputs: set<string>, msgs: seq<Msg>) {
    forall k :: 0 <= k < |msgs| && msgs[k].ResultMsg? && msgs[k].callID != "" ==> msgs[k].callID in outputs
  }

  ghost predicate Orderly(outputs: set<string>, p: Progress) {
    && Adjacent(p.out) && Guarded(outputs, p) && KnownResults(outputs, p.out) && "" !in outputs
    && AllRegular(p.deferred)
  }

  /** Windows look only at the messages inside them. */
  lemma WindowsKept(a: seq<Msg>, b: seq<Msg>, i: nat, j: nat, c: string)
    requires j <= |a|
    ensures Unanswered(a + b, i, j, c) <==> Unanswered(a, i, j, c)
    ensures OnlyTraffic(a + b, i, j) <==> OnlyTraffic(a, i, j)
  {
    hide HasCall;
    forall k: nat | k < |a| ensures (a + b)[k] == a[k] {}
    if Unanswered(a + b, i, j, c) {
      forall k | i < k < j ensures !IsResult(a[k], c) { assert (a + b)[k] == a[k]; }
    }
    if OnlyTraffic(a + b, i, j) {
      forall k | i < k < j && k < |a| ensures a[k].IsTraffic() { assert (a + b)[k] == a[k]; }
    }
  }

  /** Appending messages that are not results keeps every closed window as it was. */
  lemma AdjacentKept(a: seq<Msg>, b: seq<Msg>)
    requires Adjacent(a) && forall k :: 0 <= k < |b| ==> !b[k].ResultMsg?
    ensures Adjacent(a + b)
  {
    hide Unanswered, OnlyTraffic;
    forall i: nat, j: nat, c: string | c != "" && j < |a + b| && Unanswered(a + b, i, j, c) && IsResult((a + b)[j], c)
      ensures OnlyTraffic(a + b, i, j)
    {
      assert j < |a|;
      WindowsKept(a, b, i, j, c);
    }
  }

  /** Adding a result keeps its call's window clean, because the call was guarded until now. */
  lemma ResultOrderly(outputs: set<string>, p: Progress, q: Progress, m: Msg)
    requires Orderly(outputs, p) && m.ResultMsg? && (m.callID != "" ==> m.callID in outputs)
    requires q.out == p.out + [m] && q.awaiting == p.awaiting - {m.callID} && q.deferred == p.deferred
    ensures Orderly(outputs, q)
  {
    hide OnlyTraffic;
    forall i: nat, j: nat, c: string | c != "" && j < |q.out| && Unanswered(q.out, i, j, c) && IsResult(q.out[j], c)
      ensures OnlyTraffic(q.out, i, j)
    {
      WindowsKept(p.out, [m], i, j, c);
      if j == |p.out| { assert c in outputs; }
    }
    forall i: nat, c: string | c in outputs && Unanswered(q.out, i, |q.out|, c)
      ensures c in q.awaiting && OnlyTraffic(q.out, i, |q.out|)
    {
      ResultGuarded(outputs, p, m, i, c);
    }
  }

  lemma ResultGuarded(outputs: set<string>, p: Progress, m: Msg, i: nat, c: string)
    requires Guarded(outputs, p) && m.ResultMsg? && c in outputs && Unanswered(p.out + [m], i, |p.out| + 1, c)
    ensures c in p.awaiting && c != m.callID && OnlyTraffic(p.out + [m], i, |p.out| + 1)
  {
    var out1 := p.out + [m];
    assert i < |p.out| by {
      assert HasCall(out1[i], c) && out1[|p.out|] == m;
    }
    assert !IsResult(out1[|p.out|], c);
    forall k | i < k < |p.out| ensures !IsResult(p.out[k], c) { assert out1[k] == p.out[k]; }
    assert Unanswered(p.out, i, |p.out|, c);
    forall k | i < k < |p.out| + 1 && k < |out1| ensures out1[k].IsTraffic() {
      if k < |p.out| { assert p.out[k].IsTraffic(); }
    }
  }

  predicate Plain(m: Msg) { m.RegularMsg? || m.MediaMsg? }

  /** Plain messages are only appended when no call is awaited, so they fall into no window. */
  lemma QuietOrderly(outputs: set<string>, p: Progress, q: Progress, b: seq<Msg>)
    requires Orderly(outputs, p) && p.awaiting == {} && (forall k :: 0 <= k < |b| ==> Plain(b[k]))
    requires q.out == p.out + b && q.awaiting == {} && AllRegular(q.deferred)
    ensures Orderly(outputs, q)
  {
    AdjacentKept(p.out, b);
    forall i: nat, c: string | c in outputs ensures !Unanswered(q.out, i, |q.out|, c) {
      QuietGuarded(outputs, p, b, i, c);
    }
  }

  lemma QuietGuarded(outputs: set<string>, p: Progress, b: seq<Msg>, i: nat, c: string)
    requires Guarded(outputs, p) && p.awaiting == {} && (forall k :: 0 <= k < |b| ==> Plain(b[k])) && c in outputs
    ensures !Unanswered(p.out + b, i, |p.out + b|, c)
  {
    var out1 := p.out + b;
    if i < |p.out| && Unanswered(out1, i, |out1|, c) {
      forall k | i < k < |p.out| ensures !IsResult(p.out[k], c) { assert out1[k] == p.out[k]; }
      assert Unanswered(p.out, i, |p.out|, c);
    } else if |p.out| <= i < |out1| {
      assert Plain(b[i - |p.out|]) && out1[i] == b[i - |p.out|];
    }
  }

  lemma NewCallOrderly(outputs: set<string>, p: Progress, q: Progress, m: Msg, call: ToolCall)
    requires Orderly(outputs, p) && m.CallsMsg? && m.calls == [call]
    requires q.out == p.out + [m] && q.deferred == p.deferred
    requires q.awaiting == if call.id in outputs then p.awaiting + {call.id} else p.awaiting
    ensures Orderly(outputs, q)
  {
    AdjacentKept(p.out, [m]);
    forall i: nat, c: string | c in outputs && Unanswered(q.out, i, |q.out|, c)
      ensures c in q.awaiting && OnlyTraffic(q.out, i, |q.out|)
    {
      if i < |p.out| {
        forall k | i < k < |p.out| ensures !IsResult(p.out[k], c) { assert q.out[k] == p.out[k]; }
        assert HasCall(p.out[i], c) && Unanswered(p.out, i, |p.out|, c) && OnlyTraffic(p.out, i, |p.out|);
      } else {
        assert q.out[i] == m;
      }
    }
  }

  lemma JoinedOrderly(outputs: set<string>, p: Progress, q: Progress, call: ToolCall)
    requires Orderly(outputs, p) && p.out != [] && p.out[|p.out| - 1].CallsMsg?
    requires q.out == p.out[|p.out| - 1 := AddCall(p.out[|p.out| - 1], call)] && q.deferred == p.deferred
    requires q.awaiting == if call.id in outputs then p.awaiting + {call.id} else p.awaiting
    ensures Orderly(outputs, q)
  {
    var last := |p.out| - 1;
    forall i: nat, j: nat, c: string | i < last && j <= |p.out| && Unanswered(q.out, i, j, c)
      ensures Unanswered(p.out, i, j, c) && (OnlyTraffic(p.out, i, j) ==> OnlyTraffic(q.out, i, j))
    {
      forall k | i < k < j ensures !IsResult(p.out[k], c) { assert !IsResult(q.out[k], c); }
    }
    forall i: nat, c: string | c in outputs && Unanswered(q.out, i, |q.out|, c)
      ensures c in q.awaiting && OnlyTraffic(q.out, i, |q.out|)
    {
      if i == last {
        JoinedHas(p.out[last], call, c);
        if c != call.id { assert Unanswered(p.out, i, |p.out|, c); }
      } else {
        assert Unanswered(p.out, i, |p.out|, c);
      }
    }
    forall i: nat, j: nat, c: string | c != "" && j < |q.out| && Unanswered(q.out, i, j, c) && IsResult(q.out[j], c)
      ensures OnlyTraffic(q.out, i, j)
    {
      assert Unanswered(p.out, i, j, c) && IsResult(p.out[j], c);
    }
  }

  lemma JoinedHas(m: Msg, call: ToolCall, c: string)
    requires m.CallsMsg?
    ensures HasCall(AddCall(m, call), c) <==> HasCall(m, c) || c == call.id
  {
    var m1 := AddCall(m, call);
    assert m1.calls[|m.calls|] == call;
    forall k | 0 <= k < |m.calls| ensures m1.calls[k] == m.calls[k] {}
  }

  /** One item keeps the windows clean. */
  lemma StepOrderly(s: Setting, outputs: set<string>, p: Progress, it: InputItem)
    requires Orderly(outputs, p)
    requires p.joining ==> p.out != [] && p.out[|p.out| - 1].CallsMsg?
    requires it.OutputIn? && it.callID != "" ==> it.callID in outputs
    ensures Orderly(outputs, Step(s, outputs, p, it))
  {
    hide CallOfItem, ResultOfItem, RegularOfItem, MediaOfItem, Adjacent, Guarded, KnownResults, AllRegular;
    var q := Step(s, outputs, p, it);
    if it.CallIn? {
      var call := CallOfItem(s.codec, it);
      if p.joining {
        JoinedOrderly(outputs, p, q, call);
      } else {
        NewCallOrderly(outputs, p, q, q.out[|p.out|], call);
      }
    } else if it.OutputIn? {
      OutputOrderly(s, outputs, p, it);
    } else if IsRegular(it) {
      RegularOrderly(s, outputs, p, it);
    } else {
      OnlyOutput(outputs, p, q);
    }
  }

  lemma OnlyOutput(outputs: set<string>, p: Progress, q: Progress)
    requires Orderly(outputs, p) && q.out == p.out && q.awaiting == p.awaiting && q.deferred == p.deferred
    ensures Orderly(outputs, q)
  {
  }

  lemma OutputOrderly(s: Setting, outputs: set<string>, p: Progress, it: InputItem)
    requires Orderly(outputs, p) && it.OutputIn? && (it.callID != "" ==> it.callID in outputs)
    ensures Orderly(outputs, StepOutput(s, p.(joining := false), it))
  {
    hide ResultOfItem, MediaOfItem, Adjacent, Guarded, KnownResults;
    ResultIsTraffic(s, it);
    var m := ResultOfItem(s.codec, it);
    var q := p.(joining := false, media := p.media + MediaOfItem(s.codec, it), out := p.out + [m],
                awaiting := p.awaiting - {it.callID});
    ResultOrderly(outputs, p, q, m);
    if q.awaiting == {} {
      var b := (if q.media == [] then [] else [MediaMsg(q.media)]) + q.deferred;
      assert FlushDeferred(q).out == q.out + b;
      QuietOrderly(outputs, q, FlushDeferred(q), b);
    }
  }

  lemma RegularOrderly(s: Setting, outputs: set<string>, p: Progress, it: InputItem)
    requires Orderly(outputs, p) && IsRegular(it)
    ensures Orderly(outputs, StepRegular(s, p.(joining := false), it))
  {
    hide RegularOfItem, Adjacent, Guarded, KnownResults;
    var q := StepRegular(s, p.(joining := false), it);
    var m := RegularOfItem(s.source, it, p.pending);
    RegularIsRegular(s.source, it, p.pending);
    if p.awaiting == {} {
      var b := (if p.media == [] then [] else [MediaMsg(p.media)]) + [m];
      assert q.out == p.out + b;
      QuietOrderly(outputs, p, q, b);
    } else {
      assert AllRegular(p.deferred + [m]);
      SameWindows(outputs, p, q);
    }
  }

  lemma SameWindows(outputs: set<string>, p: Progress, q: Progress)
    requires Orderly(outputs, p) && q.out == p.out && q.awaiting == p.awaiting && AllRegular(q.deferred)
    ensures Orderly(outputs, q)
  {
  }

  lemma {:induction false} AfterOrderly(s: Setting, items: seq<InputItem>, n: nat)
    requires n <= |items|
    ensures Orderly(OutputIDs(items), After(s, items, n))
  {
    hide Step, Orderly;
    if n == 0 {
      StartOrderly(OutputIDs(items));
    } else {
      AfterOrderly(s, items, n - 1);
      AfterHeld(s, items, n - 1);
      HeldJoins(s, items, n - 1);
      assert items[n - 1].OutputIn? && items[n - 1].callID != "" ==> items[n - 1].callID in OutputIDs(items);
      StepOrderly(s, OutputIDs(items), After(s, items, n - 1), items[n - 1]);
    }
  }

  lemma HeldJoins(s: Setting, items: seq<InputItem>, n: nat)
    requires n <= |items| && Held(s, items, n, After(s, items, n))
    ensures var p := After(s, items, n); p.joining ==> p.out != [] && p.out[|p.out| - 1].CallsMsg?
  {
  }

  lemma StartOrderly(outputs: set<string>)
    requires "" !in outputs
    ensures Orderly(outputs, START)
  {
  }

  /**
   Tool adjacency, for every input: between a message that calls `c` and the first result of `c` after it stand only
   assistant tool calls and tool results.
   */
  lemma ToolAdjacency(s: Setting, items: seq<InputItem>)
    requires FirstError(items, 0).None?
    ensures Adjacent(Parsed(s, ItemsInput(items)).value)
  {
    hide After, Adjacent;
    AfterOrderly(s, items, |items|);
    var p := After(s, items, |items|);
    var b := (if p.media == [] then [] else [MediaMsg(p.media)]) + p.deferred;
    assert Messages(s, items) == p.out + b by {
      assert FlushMedia(p).deferred == p.deferred && FlushMedia(FlushMedia(p)) == FlushMedia(p);
    }
    OrderlyParts(OutputIDs(items), p);
    assert forall k :: 0 <= k < |b| ==> !b[k].ResultMsg?;
    AdjacentKept(p.out, b);
  }

  lemma OrderlyParts(outputs: set<string>, p: Progress)
    requires Orderly(outputs, p)
    ensures Adjacent(p.out) && forall k :: 0 <= k < |p.deferred| ==> p.deferred[k].RegularMsg?
  {
  }

  // ---------- nothing in between ----------

  /** The one-pass conversion that holds nothing back: every message where its item stands. */
  function Naive(s: Setting, items: seq<InputItem>, n: nat): seq<Msg>
    requires n <= |items|
  {
    if n == 0 then []
    else
      var before := Naive(s, items, n - 1);
      var it := items[n - 1];
      if it.CallIn? then
        var call := CallOfItem(s.codec, it);
        if Continues(items, n - 1) then Joined(before, call)
            else before + [CallsMsg(RunReasoning(s, items, n - 1), [call])]
      else if it.OutputIn? then
        before + [ResultOfItem(s.codec, it)]
        + if MediaOfItem(s.codec, it) == [] then [] else [MediaMsg(MediaOfItem(s.codec, it))]
      else if IsRegular(it) then before + [RegularOfItem(s.source, it, PendingAt(items, n - 1))]
      else before
  }

  /** No message and no media output stands where a call is still awaiting its output. */
  ghost predicate NothingBetween(s: Setting, items: seq<InputItem>) {
    forall n :: 0 <= n < |items| ==>
      && (IsRegular(items[n]) ==> !AnyAwaited(s, items, n))
      && (items[n].OutputIn? && MediaOfItem(s.codec, items[n]) != [] ==> !AnyAwaited(s, items, n + 1))
  }

  ghost predicate AnyAwaited(s: Setting, items: seq<InputItem>, n: nat)
    requires n <= |items|
  {
    exists c :: Awaited(s, items, n, c)
  }

  lemma NoneAwaiting(s: Setting, items: seq<InputItem>, n: nat)
    requires n <= |items| && !AnyAwaited(s, items, n)
    ensures After(s, items, n).awaiting == {}
  {
    hide After;
    AwaitingIsAwaited(s, items, n);
  }

  lemma NaiveStep(s: Setting, items: seq<InputItem>, n: nat)
    requires n < |items| && NothingBetween(s, items)
    requires var p := After(s, items, n);
             p.out == Naive(s, items, n) && p.media == [] && p.deferred == [] && Tracked(items, n, p)
    ensures var q := After(s, items, n + 1);
            q.out == Naive(s, items, n + 1) && q.media == [] && q.deferred == []
  {
    hide After, CallOfItem, ResultOfItem, RegularOfItem, MediaOfItem, AnyAwaited, StepCall, StepOutput, StepRegular;
    var p, it := After(s, items, n), items[n];
    AfterIsStep(s, items, n + 1);
    if !AnyAwaited(s, items, n) { NoneAwaiting(s, items, n); }
    if !AnyAwaited(s, items, n + 1) { NoneAwaiting(s, items, n + 1); }
    if it.CallIn? {
      NaiveCall(s, OutputIDs(items), p, it);
    } else if it.OutputIn? {
      NaiveOutput(s, p.(joining := false), it);
    } else if IsRegular(it) {
      NaiveRegular(s, p.(joining := false), it);
    }
  }

  lemma AfterIsStep(s: Setting, items: seq<InputItem>, n: nat)
    requires 0 < n <= |items|
    ensures After(s, items, n) == Step(s, OutputIDs(items), After(s, items, n - 1), items[n - 1])
  {
  }

  lemma NaiveCall(s: Setting, outputs: set<string>, p: Progress, it: InputItem)
    requires it.CallIn? && (p.joining ==> p.out != [])
    ensures var q, call := StepCall(s, outputs, p, it), CallOfItem(s.codec, it);
            && q.media == p.media && q.deferred == p.deferred
            && q.out == if p.joining then Joined(p.out, call)
                        else p.out + [CallsMsg(Fallback(LookupCall(s.source, call.id), p.pending), [call])]
  {
    hide CallOfItem, AddCall, LookupCall;
    if p.joining {
      var call := CallOfItem(s.codec, it);
      assert p.out[|p.out| - 1 := AddCall(p.out[|p.out| - 1], call)] == Joined(p.out, call);
    }
  }

  lemma NaiveOutput(s: Setting, p: Progress, it: InputItem)
    requires it.OutputIn? && p.media == [] && p.deferred == []
    requires MediaOfItem(s.codec, it) != [] ==> StepOutput(s, p, it).awaiting == {}
    ensures var q, m := StepOutput(s, p, it), MediaOfItem(s.codec, it);
            && q.media == [] && q.deferred == []
            && q.out == p.out + [ResultOfItem(s.codec, it)] + if m == [] then [] else [MediaMsg(m)]
  {
    hide ResultOfItem, MediaOfItem;
    var out, m := p.out + [ResultOfItem(s.codec, it)], MediaOfItem(s.codec, it);
    assert p.media + m == m;
    assert out + [] == out;
    assert StepOutput(s, p, it).awaiting == p.awaiting - {it.callID};
  }

  lemma NaiveRegular(s: Setting, p: Progress, it: InputItem)
    requires IsRegular(it) && p.media == [] && p.deferred == [] && p.awaiting == {}
    ensures var q := StepRegular(s, p, it);
            q.media == [] && q.deferred == [] && q.out == p.out + [RegularOfItem(s.source, it, p.pending)]
  {
    hide RegularOfItem;
  }

  lemma {:induction false} AfterIsNaive(s: Setting, items: seq<InputItem>, n: nat)
    requires n <= |items| && NothingBetween(s, items)
    ensures var p := After(s, items, n);
            p.out == Naive(s, items, n) && p.media == [] && p.deferred == []
  {
    hide NothingBetween, Step;
    if n > 0 {
      AfterIsNaive(s, items, n - 1);
      AfterHeld(s, items, n - 1);
      NaiveStep(s, items, n - 1);
    }
  }

  /** A history without messages inside a call's window is converted in one order-preserving pass. */
  lemma NaiveWhenNothingBetween(s: Setting, items: seq<InputItem>)
    requires FirstError(items, 0).None? && NothingBetween(s, items)
    ensures Parsed(s, ItemsInput(items)) == Ok(Naive(s, items, |items|))
  {
    hide NothingBetween, After;
    AfterIsNaive(s, items, |items|);
    var p := After(s, items, |items|);
    assert FlushMedia(p) == p && p.out + [] == p.out;
  }

  // ---------- reasoning ----------

  /** Item `i` takes the summary of reasoning item `r`: the last one before it, with no consumer in between. */
  predicate Takes(items: seq<InputItem>, i: nat, r: nat) {
    && r < i < |items| && Consumes(items, i) && items[r].ReasoningIn?
    && forall k :: r < k < i ==> !items[k].ReasoningIn? && !Consumes(items, k)
  }

  /** The pending summary of a consuming item is the one it takes, and there is none if it takes none. */
  lemma {:induction false} PendingIsTaken(items: seq<InputItem>, i: nat, n: nat)
    requires n <= i < |items| && Consumes(items, i)
    requires forall k :: n <= k < i ==> !items[k].ReasoningIn? && !Consumes(items, k)
    ensures forall r: nat :: Takes(items, i, r) ==> PendingAt(items, n) == SummaryText(items[r].summary)
    ensures (forall r: nat :: !Takes(items, i, r)) ==> PendingAt(items, n) == ""
  {
    hide SummaryText, Consumes;
    if n > 0 {
      if items[n - 1].ReasoningIn? {
        assert Takes(items, i, n - 1);
      } else if !Consumes(items, n - 1) {
        PendingIsTaken(items, i, n - 1);
      }
    }
  }

  /** The messages that carry the reasoning `t`. */
  function Carriers(msgs: seq<Msg>, t: string): nat {
    if msgs == [] then 0
    else
      var n := |msgs| - 1;
      Carriers(msgs[..n], t) + if (msgs[n].CallsMsg? || msgs[n].RegularMsg?) && msgs[n].reasoning == t then 1 else 0
  }

  /** How often the first `n` items replay the summary `t`. */
  function TimesReplayed(items: seq<InputItem>, n: nat, t: string): nat
    requires n <= |items|
  {
    if n == 0 then 0
    else
      TimesReplayed(items, n - 1, t)
      + if items[n - 1].ReasoningIn? && SummaryText(items[n - 1].summary) == t then 1 else 0
  }

  /** What the source has for an item that takes reasoning. */
  function Found(s: Setting, it: InputItem): string {
    if it.CallIn? then LookupCall(s.source, CallOfItem(s.codec, it).id)
    else if it.MessageIn? then LookupContent(s.source, ContentToChat(it.content).0)
    else ""
  }

  /** For how many of the first `n` items that take reasoning the source has `t`. */
  function TimesFound(s: Setting, items: seq<InputItem>, n: nat, t: string): nat
    requires n <= |items|
  {
    if n == 0 then 0
    else TimesFound(s, items, n - 1, t) + if Consumes(items, n - 1) && Found(s, items[n - 1]) == t then 1 else 0
  }

  lemma CarriersMore(msgs: seq<Msg>, m: Msg, t: string)
    ensures Carriers(msgs + [m], t)
         == Carriers(msgs, t) + if (m.CallsMsg? || m.RegularMsg?) && m.reasoning == t then 1 else 0
  {
    assert (msgs + [m])[..|msgs|] == msgs;
  }

  lemma CarriersJoined(msgs: seq<Msg>, call: ToolCall, t: string)
    ensures Carriers(Joined(msgs, call), t) == Carriers(msgs, t)
  {
    if msgs != [] {
      var n := |msgs| - 1;
      CarriersMore(msgs[..n], AddCall(msgs[n], call), t);
    }
  }

  /** Reasoning is carried by calls messages and regular ones alone. */
  lemma {:induction false} CarriersSplit(msgs: seq<Msg>, t: string)
    ensures Carriers(msgs, t) == Carriers(Traffic(msgs), t) + Carriers(Regulars(msgs), t)
  {
    if msgs != [] {
      var front, m := msgs[..|msgs| - 1], msgs[|msgs| - 1];
      CarriersSplit(front, t);
      CarriersMore(Traffic(front), m, t);
      CarriersMore(Regulars(front), m, t);
      assert Traffic(front) + [] == Traffic(front) && Regulars(front) + [] == Regulars(front);
    }
  }

  function Owed(pending: string, t: string): nat { if pending == t then 1 else 0 }

  /** Item by item: a summary that is pending has not been carried yet. */
  lemma {:induction false} CarriersBound(s: Setting, items: seq<InputItem>, n: nat, t: string)
    requires n <= |items| && t != ""
    ensures Carriers(TrafficOf(s, items, n), t) + Carriers(RegularsOf(s, items, n), t) + Owed(PendingAt(items, n), t)
         <= TimesReplayed(items, n, t) + TimesFound(s, items, n, t)
  {
    hide CallOfItem, ResultOfItem, ContentToChat, SummaryText, Carriers, Joined, LookupCall, LookupContent;
    if n == 0 {
      NoCarriers(t);
    } else {
      CarriersBound(s, items, n - 1, t);
      var traffic, it := TrafficOf(s, items, n - 1), items[n - 1];
      if !IsRegular(it) { assert RegularsOf(s, items, n) == RegularsOf(s, items, n - 1); }
      if it.CallIn? {
        var call := CallOfItem(s.codec, it);
        if Continues(items, n - 1) {
          CarriersJoined(traffic, call, t);
          assert TrafficOf(s, items, n) == Joined(traffic, call);
          assert PendingAt(items, n) == PendingAt(items, n - 1);
        } else {
          CarriersMore(traffic, CallsMsg(RunReasoning(s, items, n - 1), [call]), t);
          assert PendingAt(items, n) == "";
          assert TrafficOf(s, items, n) == traffic + [CallsMsg(RunReasoning(s, items, n - 1), [call])];
          assert Found(s, it) == LookupCall(s.source, call.id);
        }
      } else if it.OutputIn? {
        ResultIsTraffic(s, it);
        CarriersMore(traffic, ResultOfItem(s.codec, it), t);
      } else if IsRegular(it) {
        CarriersMore(RegularsOf(s, items, n - 1), RegularOfItem(s.source, it, PendingAt(items, n - 1)), t);
      }
    }
  }

  lemma NoCarriers(t: string)
    ensures Carriers([], t) == 0
  {
  }

  /**
   Each replayed summary goes to at most one message: in the converted history no more messages carry a text than there
   are reasoning items that replay it and takers for which the source itself has it.
   */
  lemma SummaryTakenOnce(s: Setting, items: seq<InputItem>, t: string)
    requires FirstError(items, 0).None? && t != ""
    ensures Parsed(s, ItemsInput(items)).Ok?
    ensures Carriers(Parsed(s, ItemsInput(items)).value, t)
         <= TimesReplayed(items, |items|, t) + TimesFound(s, items, |items|, t)
  {
    hide Parsed, TrafficOf, RegularsOf, Carriers, TimesReplayed, TimesFound, Traffic, Regulars;
    Conservation(s, items);
    CarriersSplit(Parsed(s, ItemsInput(items)).value, t);
    CarriersBound(s, items, |items|, t);
  }
}
