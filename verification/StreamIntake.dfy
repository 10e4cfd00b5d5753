/**
 What a stream takes from its upstream, said of the lines as they come: which of them it takes, and what the chunks on
 them add up to. (convert/stream.go StreamChatToResponses, consumeChunk, handleDelta)
 */
module StreamIntake {
  import opened Common
  import opened Protocol
  import opened StreamSpec
  import opened StreamHistory

  // ---------- which lines ----------

  /** The loop is left at this turn. */
  predicate Stops(r: Read) {
    r.cancelled || r.line.DoneMarker? || r.line.UpstreamError? || r.error != NoError
  }

  /** Turn `i` brings a chunk that is taken: the loop was not left before, and not at this turn before its line is
      looked at. A line that arrives together with the end of the file or a read error is taken. */
  predicate IsTaken(turns: seq<Read>, i: nat) {
    && i < |turns| && turns[i].line.Data? && !turns[i].cancelled
    && forall j :: 0 <= j < i ==> !Stops(turns[j])
  }

  /** Where the loop is left, and why. */
  ghost predicate StopsWith(turns: seq<Read>, stop: Stop) {
    || (stop == StopEnd(false) && forall j :: 0 <= j < |turns| ==> !Stops(turns[j]))
    || exists i :: 0 <= i < |turns| && StopsAt(turns, i, stop)
  }

  ghost predicate StopsAt(turns: seq<Read>, i: nat, stop: Stop)
    requires i < |turns|
  {
    && Stops(turns[i]) && (forall j :: 0 <= j < i ==> !Stops(turns[j]))
    && var r := turns[i];
       if r.cancelled then stop == StopCancelled
       else if r.line.DoneMarker? then stop == StopEnd(true)
       else if r.line.UpstreamError? then
         stop == StopUpstream(if r.line.message == "" then "upstream returned an error" else r.line.message)
       else if r.error.Broken? then stop == StopBroken(r.error.message)
       else stop == StopEnd(false)
  }

  // ---------- what they say ----------

  /** The first choice of the chunk at turn `i`, if it is taken and has one. */
  predicate Speaks(turns: seq<Read>, i: nat) {
    IsTaken(turns, i) && turns[i].line.chunk.choices != []
  }

  function ChoiceAt(turns: seq<Read>, i: nat): Choice
    requires Speaks(turns, i)
  {
    turns[i].line.chunk.choices[0]
  }

  /** The usage of the last taken chunk that has one, with or without choices. */
  function UsageHeard(turns: seq<Read>, n: nat): Option<Usage> {
    if n == 0 then None
    else if IsTaken(turns, n - 1) && turns[n - 1].line.chunk.usage.Some? then turns[n - 1].line.chunk.usage
    else UsageHeard(turns, n - 1)
  }

  /** The last non-empty finish reason of a first choice. */
  function FinishHeard(turns: seq<Read>, n: nat): string {
    if n == 0 then ""
    else if Speaks(turns, n - 1) && ChoiceAt(turns, n - 1).finishReason.Some?
            && ChoiceAt(turns, n - 1).finishReason.value != "" then ChoiceAt(turns, n - 1).finishReason.value
    else FinishHeard(turns, n - 1)
  }

  function ReasoningHeard(turns: seq<Read>, n: nat): string {
    if n == 0 then ""
    else ReasoningHeard(turns, n - 1) + if Speaks(turns, n - 1) then ChoiceAt(turns, n - 1).delta.reasoning else ""
  }

  function TextHeard(turns: seq<Read>, n: nat): string {
    if n == 0 then ""
    else TextHeard(turns, n - 1) + if Speaks(turns, n - 1) then ChoiceAt(turns, n - 1).delta.content else ""
  }

  function FragmentsHeard(turns: seq<Read>, n: nat): seq<ToolDelta> {
    if n == 0 then []
    else FragmentsHeard(turns, n - 1) + if Speaks(turns, n - 1) then ChoiceAt(turns, n - 1).delta.toolCalls else []
  }

  /** The finish reason known when the first tool fragment came, or at the end when none does. */
  function FinishAtToolsHeard(turns: seq<Read>, n: nat): string {
    if n == 0 then ""
    else if FragmentsHeard(turns, n - 1) != [] then FinishAtToolsHeard(turns, n - 1)
    else FinishHeard(turns, n)
  }

  /** No reasoning comes after text or a tool fragment of an earlier chunk, and no text after a tool fragment of one.
      What one chunk brings is always in order: reasoning, text, tools. */
  predicate ChunksInOrder(turns: seq<Read>, n: nat) {
    forall i :: 0 <= i < n && Speaks(turns, i) ==>
      && (ChoiceAt(turns, i).delta.reasoning != "" ==> TextHeard(turns, i) == "" && FragmentsHeard(turns, i) == [])
      && (ChoiceAt(turns, i).delta.content != "" ==> FragmentsHeard(turns, i) == [])
  }

  // ---------- signals and chunks ----------

  /** The signals of the first `n` turns. */
  function SignalsOf(turns: seq<Read>, n: nat): seq<Signal> {
    if n == 0 then []
    else SignalsOf(turns, n - 1) + if IsTaken(turns, n - 1) then Signals(turns[n - 1].line.chunk) else []
  }

  lemma {:induction false} NoneAfter(turns: seq<Read>, i: nat, n: nat)
    requires i < n && i < |turns| && Stops(turns[i])
    ensures SignalsOf(turns, n) == SignalsOf(turns, i + 1)
    decreases n
  {
    hide Signals, Stops;
    if n > i + 1 {
      NoneAfter(turns, i, n - 1);
      assert !IsTaken(turns, n - 1);
    }
  }

  /** Up to the first stop, what was received is the signals so far and what the rest brings. */
  lemma {:induction false} ReceivedFrom(turns: seq<Read>, i: nat)
    requires i <= |turns| && forall j :: 0 <= j < i ==> !Stops(turns[j])
    ensures Received(turns)
         == Intake(SignalsOf(turns, i) + Received(turns[i..]).signals, Received(turns[i..]).stop)
  {
    hide Signals, LineSignals;
    if i == 0 {
      assert turns[0..] == turns;
    } else {
      ReceivedFrom(turns, i - 1);
      var rest := turns[i - 1..];
      assert rest[1..] == turns[i..] && rest[0] == turns[i - 1] && !Stops(rest[0]);
      OneLine(turns, i - 1);
      var more := LineSignals(turns[i - 1].line);
      assert Received(rest) == Intake(more + Received(turns[i..]).signals, Received(turns[i..]).stop);
      assert SignalsOf(turns, i - 1) + (more + Received(turns[i..]).signals)
          == SignalsOf(turns, i - 1) + more + Received(turns[i..]).signals;
    }
  }

  lemma OneLine(turns: seq<Read>, i: nat)
    requires i < |turns| && forall j :: 0 <= j < i ==> !Stops(turns[j])
    requires !turns[i].cancelled
    ensures SignalsOf(turns, i + 1) == SignalsOf(turns, i) + LineSignals(turns[i].line)
  {
    hide Signals;
  }

  /** The lines taken and the way the loop is left. */
  lemma ReceivedIs(turns: seq<Read>)
    ensures Received(turns).signals == SignalsOf(turns, |turns|) && StopsWith(turns, Received(turns).stop)
  {
    hide Signals, LineSignals, SignalsOf;
    if i :| FirstStop(turns, i) {
      ReceivedFrom(turns, i);
      NoneAfter(turns, i, |turns|);
      LastLine(turns, i);
      assert StopsAt(turns, i, Received(turns).stop);
    } else {
      NeverStops(turns, |turns|);
      ReceivedFrom(turns, |turns|);
      assert turns[|turns|..] == [];
      assert SignalsOf(turns, |turns|) + [] == SignalsOf(turns, |turns|);
    }
  }

  predicate FirstStop(turns: seq<Read>, i: nat) {
    i < |turns| && Stops(turns[i]) && forall j :: 0 <= j < i ==> !Stops(turns[j])
  }

  lemma {:induction false} NeverStops(turns: seq<Read>, n: nat)
    requires n <= |turns| && forall i: nat :: !FirstStop(turns, i)
    ensures forall j :: 0 <= j < n ==> !Stops(turns[j])
  {
    hide Stops;
    if n > 0 {
      NeverStops(turns, n - 1);
      assert !FirstStop(turns, n - 1);
    }
  }

  lemma LastLine(turns: seq<Read>, i: nat)
    requires FirstStop(turns, i)
    ensures SignalsOf(turns, i) + Received(turns[i..]).signals == SignalsOf(turns, i + 1)
    ensures StopsAt(turns, i, Received(turns[i..]).stop)
  {
    hide Signals;
    assert turns[i..][0] == turns[i];
    if turns[i].cancelled || turns[i].line.DoneMarker? || turns[i].line.UpstreamError? {
      assert !IsTaken(turns, i);
    } else {
      OneLine(turns, i);
    }
  }

  // ---------- sums over signals ----------

  lemma Texts(sigs: seq<Signal>, sig: Signal)
    ensures ReasoningOf(sigs + [sig]) == if sig.ReasoningPiece? then ReasoningOf(sigs) + sig.text else ReasoningOf(sigs)
    ensures TextOf(sigs + [sig]) == if sig.TextPiece? then TextOf(sigs) + sig.text else TextOf(sigs)
  {
    assert (sigs + [sig])[..|sigs|] == sigs;
  }

  lemma {:induction false} TextsConcat(a: seq<Signal>, b: seq<Signal>)
    ensures ReasoningOf(a + b) == ReasoningOf(a) + ReasoningOf(b)
    ensures TextOf(a + b) == TextOf(a) + TextOf(b)
  {
    if b == [] {
      assert a + b == a;
    } else {
      hide ReasoningOf, TextOf;
      var n := |b| - 1;
      TextsConcat(a, b[..n]);
      assert a + b == a + b[..n] + [b[n]] && b == b[..n] + [b[n]];
      Texts(a + b[..n], b[n]);
      Texts(b[..n], b[n]);
      if b[n].ReasoningPiece? { Associates(ReasoningOf(a), ReasoningOf(b[..n]), b[n].text); }
      if b[n].TextPiece? { Associates(TextOf(a), TextOf(b[..n]), b[n].text); }
    }
  }

  lemma Associates(a: string, b: string, c: string)
    ensures a + b + c == a + (b + c)
  {
  }

  lemma {:induction false} FragmentsConcat(a: seq<Signal>, b: seq<Signal>)
    ensures Fragments(a + b) == Fragments(a) + Fragments(b)
  {
    if b == [] {
      assert a + b == a;
    } else {
      var n := |b| - 1;
      FragmentsConcat(a, b[..n]);
      assert (a + b)[..|a + b| - 1] == a + b[..n];
    }
  }

  lemma {:induction false} LastConcat(a: seq<Signal>, b: seq<Signal>)
    ensures FinishOf(a + b) == if Finishes(b) then FinishOf(b) else FinishOf(a)
    ensures UsageOf(a + b) == if UsageOf(b).Some? then UsageOf(b) else UsageOf(a)
  {
    if b == [] {
      assert a + b == a;
    } else {
      var n := |b| - 1;
      LastConcat(a, b[..n]);
      assert (a + b)[..|a + b| - 1] == a + b[..n];
      assert Finishes(b) <==> Finishes(b[..n]) || b[n].SetFinish?;
    }
  }

  predicate Finishes(sigs: seq<Signal>) { exists i :: 0 <= i < |sigs| && sigs[i].SetFinish? }

  /** What one chunk says. */
  lemma ChunkSays(c: Chunk)
    ensures var sigs := Signals(c);
            && UsageOf(sigs) == c.usage
            && (Finishes(sigs) <==>
                  c.choices != [] && c.choices[0].finishReason.Some? && c.choices[0].finishReason.value != "")
            && (Finishes(sigs) ==> FinishOf(sigs) == c.choices[0].finishReason.value)
            && ReasoningOf(sigs) == (if c.choices == [] then "" else c.choices[0].delta.reasoning)
            && TextOf(sigs) == (if c.choices == [] then "" else c.choices[0].delta.content)
            && Fragments(sigs) == (if c.choices == [] then [] else c.choices[0].delta.toolCalls)
  {
    var head := HeadSignals(c);
    HeadSays(c);
    if c.choices == [] {
      assert Signals(c) == head;
    } else {
      var d := c.choices[0].delta;
      DeltaSays(d);
      TextsConcat(head, DeltaSignals(d));
      FragmentsConcat(head, DeltaSignals(d));
      LastConcat(head, DeltaSignals(d));
      FinishesConcat(head, DeltaSignals(d));
    }
  }

  lemma FinishesConcat(a: seq<Signal>, b: seq<Signal>)
    ensures Finishes(a + b) <==> Finishes(a) || Finishes(b)
  {
    if i :| 0 <= i < |a| && a[i].SetFinish? { assert (a + b)[i].SetFinish?; }
    if i :| 0 <= i < |b| && b[i].SetFinish? { assert (a + b)[|a| + i].SetFinish?; }
  }

  lemma HeadSays(c: Chunk)
    ensures var sigs := HeadSignals(c);
            && UsageOf(sigs) == c.usage
            && (Finishes(sigs) <==>
                  c.choices != [] && c.choices[0].finishReason.Some? && c.choices[0].finishReason.value != "")
            && (Finishes(sigs) ==> FinishOf(sigs) == c.choices[0].finishReason.value)
            && ReasoningOf(sigs) == "" && TextOf(sigs) == "" && Fragments(sigs) == []
  {
    var u: seq<Signal> := if c.usage.None? then [] else [SetUsage(c.usage.value)];
    var f: seq<Signal> :=
      if c.choices == [] || c.choices[0].finishReason.None? || c.choices[0].finishReason.value == "" then []
      else [SetFinish(c.choices[0].finishReason.value)];
    assert HeadSignals(c) == u + f;
    if u != [] { OneSays(u[0]); }
    if f != [] { OneSays(f[0]); }
    TextsConcat(u, f);
    FragmentsConcat(u, f);
    LastConcat(u, f);
    FinishesConcat(u, f);
  }

  lemma NoneSays()
    ensures UsageOf([]) == None && !Finishes([]) && FinishOf([]) == ""
    ensures ReasoningOf([]) == "" && TextOf([]) == "" && Fragments([]) == []
  {
  }

  lemma OneSays(sig: Signal)
    ensures UsageOf([sig]) == if sig.SetUsage? then Some(sig.usage) else None
    ensures Finishes([sig]) <==> sig.SetFinish?
    ensures FinishOf([sig]) == if sig.SetFinish? then sig.reason else ""
    ensures ReasoningOf([sig]) == if sig.ReasoningPiece? then sig.text else ""
    ensures TextOf([sig]) == if sig.TextPiece? then sig.text else ""
    ensures Fragments([sig]) == if sig.ToolPiece? then [sig.delta] else []
  {
    assert [sig][..0] == [] && [sig][0] == sig;
    assert "" + (if sig.ReasoningPiece? then sig.text else "") == if sig.ReasoningPiece? then sig.text else "";
  }

  /** What some signals followed by others add up to. */
  lemma BothSay(a: seq<Signal>, b: seq<Signal>)
    ensures UsageOf(a + b) == if UsageOf(b).Some? then UsageOf(b) else UsageOf(a)
    ensures Finishes(a + b) <==> Finishes(a) || Finishes(b)
    ensures ReasoningOf(a + b) == ReasoningOf(a) + ReasoningOf(b) && TextOf(a + b) == TextOf(a) + TextOf(b)
    ensures Fragments(a + b) == Fragments(a) + Fragments(b)
  {
    hide UsageOf, FinishOf, Finishes, ReasoningOf, TextOf, Fragments;
    TextsConcat(a, b);
    FragmentsConcat(a, b);
    LastConcat(a, b);
    FinishesConcat(a, b);
  }

  /** Some signals say this much and nothing of a usage or a finish reason. */
  predicate Say(sigs: seq<Signal>, reasoning: string, text: string, calls: seq<ToolDelta>) {
    && UsageOf(sigs) == None && !Finishes(sigs)
    && ReasoningOf(sigs) == reasoning && TextOf(sigs) == text && Fragments(sigs) == calls
  }

  lemma SayBoth(a: seq<Signal>, r: string, t: string, f: seq<ToolDelta>, b: seq<Signal>, r1: string, t1: string,
                f1: seq<ToolDelta>)
    requires Say(a, r, t, f) && Say(b, r1, t1, f1)
    ensures Say(a + b, r + r1, t + t1, f + f1)
  {
    hide UsageOf, FinishOf, Finishes, ReasoningOf, TextOf, Fragments;
    BothSay(a, b);
  }

  lemma ReasoningSays(text: string)
    ensures Say(if text == "" then [] else [ReasoningPiece(text)], text, "", [])
  {
    hide UsageOf, FinishOf, Finishes, ReasoningOf, TextOf, Fragments;
    NoneSays();
    OneSays(ReasoningPiece(text));
  }

  lemma TextSays(text: string)
    ensures Say(if text == "" then [] else [TextPiece(text)], "", text, [])
  {
    hide UsageOf, FinishOf, Finishes, ReasoningOf, TextOf, Fragments;
    NoneSays();
    OneSays(TextPiece(text));
  }

  lemma DeltaSays(d: Delta)
    ensures Say(DeltaSignals(d), d.reasoning, d.content, d.toolCalls)
  {
    hide Say, ToolSignals;
    ReasoningSays(d.reasoning);
    TextSays(d.content);
    CallsSay(d.toolCalls);
    var r: seq<Signal> := if d.reasoning == "" then [] else [ReasoningPiece(d.reasoning)];
    var t: seq<Signal> := if d.content == "" then [] else [TextPiece(d.content)];
    SayBoth(r, d.reasoning, "", [], t, "", d.content, []);
    SayBoth(r + t, d.reasoning + "", "" + d.content, [] + [], ToolSignals(d.toolCalls), "", "", d.toolCalls);
    assert DeltaSignals(d) == r + t + ToolSignals(d.toolCalls);
    assert d.reasoning + "" + "" == d.reasoning && "" + d.content + "" == d.content;
    assert [] + [] + d.toolCalls == d.toolCalls;
  }

  lemma {:induction false} CallsSay(calls: seq<ToolDelta>)
    ensures Say(ToolSignals(calls), "", "", calls)
  {
    if calls != [] {
      var n := |calls| - 1;
      CallsSay(calls[..n]);
      assert ToolSignals(calls)[..n] == ToolSignals(calls[..n]);
      assert calls == calls[..n] + [calls[n]];
    }
  }

  // ---------- the same over turns ----------

  /** What the signals of the first `n` turns add up to is what their chunks say. */
  lemma {:induction false} SignalsSay(turns: seq<Read>, n: nat)
    ensures var sigs := SignalsOf(turns, n);
            && UsageOf(sigs) == UsageHeard(turns, n) && FinishOf(sigs) == FinishHeard(turns, n)
            && ReasoningOf(sigs) == ReasoningHeard(turns, n) && TextOf(sigs) == TextHeard(turns, n)
            && Fragments(sigs) == FragmentsHeard(turns, n)
  {
    hide Signals, IsTaken, UsageOf, FinishOf, ReasoningOf, TextOf, Fragments, Finishes;
    if n == 0 {
      NothingSays();
    } else {
      SignalsSay(turns, n - 1);
      var before := SignalsOf(turns, n - 1);
      if IsTaken(turns, n - 1) {
        TakenIsData(turns, n - 1);
        var more := Signals(turns[n - 1].line.chunk);
        ChunkSays(turns[n - 1].line.chunk);
        TextsConcat(before, more);
        FragmentsConcat(before, more);
        LastConcat(before, more);
        assert ReasoningHeard(turns, n - 1) + "" == ReasoningHeard(turns, n - 1);
        assert TextHeard(turns, n - 1) + "" == TextHeard(turns, n - 1);
        assert FragmentsHeard(turns, n - 1) + [] == FragmentsHeard(turns, n - 1);
      } else {
        assert before + [] == before;
        assert ReasoningHeard(turns, n - 1) + "" == ReasoningHeard(turns, n - 1);
        assert TextHeard(turns, n - 1) + "" == TextHeard(turns, n - 1);
        assert FragmentsHeard(turns, n - 1) + [] == FragmentsHeard(turns, n - 1);
      }
    }
  }

  lemma TakenIsData(turns: seq<Read>, i: nat)
    requires IsTaken(turns, i)
    ensures i < |turns| && turns[i].line.Data?
  {
  }

  lemma NothingSays()
    ensures UsageOf([]) == None && FinishOf([]) == "" && ReasoningOf([]) == "" && TextOf([]) == ""
    ensures Fragments([]) == []
    ensures FinishAtTools([]) == ""
  {
  }

  lemma {:induction false} AtToolsConcat(a: seq<Signal>, b: seq<Signal>)
    requires Fragments(a) != []
    ensures FinishAtTools(a + b) == FinishAtTools(a)
  {
    if b == [] {
      assert a + b == a;
    } else {
      var n := |b| - 1;
      AtToolsConcat(a, b[..n]);
      FragmentsConcat(a, b[..n]);
      assert (a + b)[..|a + b| - 1] == a + b[..n];
    }
  }

  /** Without a finish reason after the first fragment, the finish reason there is the last one. */
  lemma {:induction false} AtToolsIsLast(sigs: seq<Signal>)
    requires FragmentsLast(sigs)
    ensures FinishAtTools(sigs) == FinishOf(sigs)
  {
    if sigs != [] {
      var before := sigs[..|sigs| - 1];
      if Fragments(before) != [] {
        FragmentsShow(before);
        var i :| 0 <= i < |before| && before[i].ToolPiece?;
        assert sigs[i].ToolPiece?;
        assert forall i, j :: 0 <= i < j < |before| ==> before[i] == sigs[i] && before[j] == sigs[j];
        AtToolsIsLast(before);
      }
    }
  }

  /** No finish reason follows a tool fragment, as within one chunk. */
  predicate FragmentsLast(sigs: seq<Signal>) {
    forall i, j :: 0 <= i < j < |sigs| && sigs[i].ToolPiece? ==> !sigs[j].SetFinish?
  }

  lemma {:induction false} AtToolsHeard(turns: seq<Read>, n: nat)
    ensures FinishAtTools(SignalsOf(turns, n)) == FinishAtToolsHeard(turns, n)
  {
    hide Signals, IsTaken, FinishAtTools, FinishOf, Fragments, FragmentsHeard, FinishHeard, FragmentsLast;
    if n == 0 {
      NothingSays();
    } else {
      AtToolsHeard(turns, n - 1);
      SignalsSay(turns, n - 1);
      SignalsSay(turns, n);
      var before := SignalsOf(turns, n - 1);
      assert before + [] == before;
      if FragmentsHeard(turns, n - 1) != [] {
        if IsTaken(turns, n - 1) {
          TakenIsData(turns, n - 1);
          AtToolsConcat(before, Signals(turns[n - 1].line.chunk));
        }
      } else {
        if IsTaken(turns, n - 1) {
          TakenIsData(turns, n - 1);
          ChunkLast(before, turns[n - 1].line.chunk);
        } else {
          NoFragmentsLast(before);
        }
        AtToolsIsLast(SignalsOf(turns, n));
      }
    }
  }

  lemma NoFragmentsLast(sigs: seq<Signal>)
    requires Fragments(sigs) == []
    ensures FragmentsLast(sigs)
  {
    hide Fragments;
    FragmentsShow(sigs);
  }

  lemma ChunkLast(before: seq<Signal>, c: Chunk)
    requires Fragments(before) == []
    ensures FragmentsLast(before + Signals(c))
  {
    hide Fragments;
    FragmentsShow(before);
    ChunkOrder(c);
    var all, sigs := before + Signals(c), Signals(c);
    assert forall k :: 0 <= k < |before| ==> all[k] == before[k];
    forall i, j | 0 <= i < j < |all| && all[i].ToolPiece? ensures !all[j].SetFinish? {
      if i >= |before| {
        assert sigs[i - |before|].ToolPiece? && sigs[j - |before|] == all[j];
      }
    }
  }

  /** One chunk's signals: usage and finish reason, then reasoning, text and tool fragments. */
  lemma ChunkOrder(c: Chunk)
    ensures FragmentsLast(Signals(c)) && InOrder(Signals(c))
  {
  }

  // ---------- order ----------

  /** What may follow what. */
  predicate MayFollow(a: seq<Signal>, b: seq<Signal>) {
    && (ReasoningOf(b) != "" ==> TextOf(a) == "" && Fragments(a) == [])
    && (TextOf(b) != "" ==> Fragments(a) == [])
  }

  lemma OrderConcat(a: seq<Signal>, b: seq<Signal>)
    requires Proper(a) && Proper(b) && InOrder(b)
    ensures InOrder(a + b) <==> InOrder(a) && MayFollow(a, b)
  {
    hide ReasoningOf, TextOf, Fragments;
    PiecesShow(a);
    PiecesShow(b);
    var all := a + b;
    assert forall i :: 0 <= i < |a| ==> all[i] == a[i];
    assert forall i :: 0 <= i < |b| ==> all[|a| + i] == b[i];
    if InOrder(all) {
      OrderOfParts(a, b);
    } else if InOrder(a) && MayFollow(a, b) {
      OrderOfWhole(a, b);
    }
  }

  lemma OrderOfParts(a: seq<Signal>, b: seq<Signal>)
    requires Proper(a) && Proper(b) && InOrder(a + b)
    ensures InOrder(a) && MayFollow(a, b)
  {
    hide ReasoningOf, TextOf, Fragments;
    PiecesShow(a);
    PiecesShow(b);
    var all := a + b;
    forall i, j | 0 <= i < j < |a|
      ensures all[i] == a[i] && all[j] == a[j]
    {
    }
    if j :| 0 <= j < |b| && (b[j].ReasoningPiece? || b[j].TextPiece?) {
      assert all[|a| + j] == b[j];
    }
    forall i, j | 0 <= i < |a| && 0 <= j < |b|
      ensures b[j].ReasoningPiece? ==> !a[i].TextPiece? && !a[i].ToolPiece?
      ensures b[j].TextPiece? ==> !a[i].ToolPiece?
    {
      assert all[i] == a[i] && all[|a| + j] == b[j];
    }
  }

  lemma OrderOfWhole(a: seq<Signal>, b: seq<Signal>)
    requires Proper(a) && Proper(b) && InOrder(a) && InOrder(b) && MayFollow(a, b)
    ensures InOrder(a + b)
  {
    hide ReasoningOf, TextOf, Fragments;
    PiecesShow(a);
    PiecesShow(b);
    var all := a + b;
    forall i, j | 0 <= i < j < |all|
      ensures all[j].ReasoningPiece? ==> !all[i].TextPiece? && !all[i].ToolPiece?
      ensures all[j].TextPiece? ==> !all[i].ToolPiece?
    {
      if j < |a| {
        assert all[i] == a[i] && all[j] == a[j];
      } else if i < |a| {
        assert all[i] == a[i] && all[j] == b[j - |a|];
      } else {
        assert all[i] == b[i - |a|] && all[j] == b[j - |a|];
      }
    }
  }

  lemma ChunkProper(c: Chunk)
    ensures Proper(Signals(c))
  {
  }

  /** One more chunk. */
  lemma OrderGrows(before: seq<Signal>, c: Chunk)
    requires Proper(before)
    ensures Proper(before + Signals(c))
    ensures InOrder(before + Signals(c)) <==>
            InOrder(before)
            && (c.choices != [] ==>
                  && (c.choices[0].delta.reasoning != "" ==> TextOf(before) == "" && Fragments(before) == [])
                  && (c.choices[0].delta.content != "" ==> Fragments(before) == []))
  {
    hide Signals, InOrder, ReasoningOf, TextOf, Fragments, UsageOf, FinishOf, Finishes;
    ChunkProper(c);
    ChunkOrder(c);
    ChunkSays(c);
    OrderConcat(before, Signals(c));
  }

  lemma {:induction false} OrderHeard(turns: seq<Read>, n: nat)
    ensures Proper(SignalsOf(turns, n)) && (InOrder(SignalsOf(turns, n)) <==> ChunksInOrder(turns, n))
  {
    hide Signals, IsTaken, InOrder, Proper, ChunksInOrder, ReasoningOf, TextOf, Fragments, ReasoningHeard, TextHeard,
         FragmentsHeard;
    if n == 0 {
      NothingOrdered(turns);
    } else {
      OrderHeard(turns, n - 1);
      SignalsSay(turns, n - 1);
      var before := SignalsOf(turns, n - 1);
      if IsTaken(turns, n - 1) {
        TakenIsData(turns, n - 1);
        OrderGrows(before, turns[n - 1].line.chunk);
      } else {
        assert before + [] == before;
      }
      MoreInOrder(turns, n);
    }
  }

  lemma NothingOrdered(turns: seq<Read>)
    ensures Proper([]) && InOrder([]) && ChunksInOrder(turns, 0)
  {
  }

  lemma MoreInOrder(turns: seq<Read>, n: nat)
    requires n > 0
    ensures ChunksInOrder(turns, n) <==>
            ChunksInOrder(turns, n - 1)
            && (Speaks(turns, n - 1) ==>
                  && (ChoiceAt(turns, n - 1).delta.reasoning != "" ==>
                        TextHeard(turns, n - 1) == "" && FragmentsHeard(turns, n - 1) == [])
                  && (ChoiceAt(turns, n - 1).delta.content != "" ==> FragmentsHeard(turns, n - 1) == []))
  {
    hide IsTaken, TextHeard, FragmentsHeard;
  }

  /**
   The intake of a stream, line by line: the signals the conversion works on amount to the last usage and finish reason,
   the texts and the fragments of the chunks taken, and are in order exactly if the chunks are.
   */
  lemma IntakeIs(turns: seq<Read>)
    ensures var sigs, n := Received(turns).signals, |turns|;
            && UsageOf(sigs) == UsageHeard(turns, n) && FinishOf(sigs) == FinishHeard(turns, n)
            && ReasoningOf(sigs) == ReasoningHeard(turns, n) && TextOf(sigs) == TextHeard(turns, n)
            && Fragments(sigs) == FragmentsHeard(turns, n) && FinishAtTools(sigs) == FinishAtToolsHeard(turns, n)
            && (InOrder(sigs) <==> ChunksInOrder(turns, n))
            && StopsWith(turns, Received(turns).stop)
  {
    hide Received, SignalsOf, ChunksInOrder, InOrder, StopsWith, UsageHeard, FinishHeard, ReasoningHeard, TextHeard,
         FragmentsHeard, FinishAtToolsHeard, UsageOf, FinishOf, ReasoningOf, TextOf, Fragments, FinishAtTools;
    ReceivedIs(turns);
    SignalsSay(turns, |turns|);
    AtToolsHeard(turns, |turns|);
    OrderHeard(turns, |turns|);
  }
}
