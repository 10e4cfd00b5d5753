/**
 What stands between a call and its output in the converted history, read off the input items: exactly when a message
 comes in between, and what follows a run of calls that is answered before the next one.
 (convert/request.go parseInput)
 */
module InputWindows {
  import opened Common
  import opened Json
  import opened Protocol
  import opened InputSpec
  import opened InputProofs

  // ---------- where a message lands ----------

  /** An item that gives rise to a message of its own that is neither calls nor result: a regular one, or an output with
      images. */
  predicate GivesPlain(c: Codec, it: InputItem) {
    IsRegular(it) || (it.OutputIn? && MediaOfItem(c, it) != [])
  }

  /** The message of item `m` goes out with item `n`: some call is awaiting its output until then, and none after. */
  ghost predicate LandsAt(s: Setting, items: seq<InputItem>, m: nat, n: nat) {
    && m <= n < |items| && GivesPlain(s.codec, items[m])
    && (forall j :: m < j <= n ==> AnyAwaited(s, items, j)) && !AnyAwaited(s, items, n + 1)
  }

  /** The message of some item goes out with item `n`. */
  ghost predicate Lands(s: Setting, items: seq<InputItem>, n: nat) {
    exists m: nat :: LandsAt(s, items, m, n)
  }

  predicate Holding(p: Progress) { p.media != [] || p.deferred != [] }

  ghost predicate HeldSince(s: Setting, items: seq<InputItem>, m: nat, n: nat)
    requires n <= |items|
  {
    m < n && GivesPlain(s.codec, items[m]) && forall j :: m < j <= n ==> AnyAwaited(s, items, j)
  }

  lemma AwaitingMeans(s: Setting, items: seq<InputItem>, n: nat)
    requires n <= |items|
    ensures After(s, items, n).awaiting != {} <==> AnyAwaited(s, items, n)
    ensures Settled(After(s, items, n))
  {
    hide After, Awaited, Conserved, Tracked;
    AwaitingIsAwaited(s, items, n);
    AfterHeld(s, items, n);
    if c :| Awaited(s, items, n, c) { assert c in After(s, items, n).awaiting; }
    if After(s, items, n).awaiting != {} {
      var c :| c in After(s, items, n).awaiting;
      assert Awaited(s, items, n, c);
    }
  }

  /** While some call is awaiting its output, what is held back only grows. */
  lemma StepHolds(s: Setting, outputs: set<string>, p: Progress, it: InputItem)
    requires Settled(p)
    ensures var q := Step(s, outputs, p, it);
            q.awaiting != {} ==> (Holding(q) <==> Holding(p) || GivesPlain(s.codec, it))
  {
    hide CallOfItem, ResultOfItem, MediaOfItem, RegularOfItem;
  }

  lemma {:induction false} HeldExactly(s: Setting, items: seq<InputItem>, n: nat)
    requires n <= |items|
    ensures Holding(After(s, items, n)) <==> exists m: nat :: HeldSince(s, items, m, n)
    decreases n, 1
  {
    hide AnyAwaited, Step, GivesPlain, Settled;
    AwaitingMeans(s, items, n);
    if !AnyAwaited(s, items, n) {
      NothingHeld(After(s, items, n));
    } else {
      HeldLater(s, items, n);
    }
  }

  lemma HeldLater(s: Setting, items: seq<InputItem>, n: nat)
    requires n <= |items| && AnyAwaited(s, items, n)
    ensures Holding(After(s, items, n)) <==> exists m: nat :: HeldSince(s, items, m, n)
    decreases n, 0
  {
    hide AnyAwaited, Step, GivesPlain, Settled;
    NoneAtFirst(s, items);
    var o := n - 1;
    var p := After(s, items, o);
    HeldExactly(s, items, o);
    AwaitingMeans(s, items, o);
    AwaitingMeans(s, items, n);
    StepHolds(s, OutputIDs(items), p, items[o]);
    if GivesPlain(s.codec, items[o]) { assert HeldSince(s, items, o, n); }
    if m: nat :| HeldSince(s, items, m, o) { assert HeldSince(s, items, m, n); }
    if m: nat :| HeldSince(s, items, m, n) {
      if m < o { assert HeldSince(s, items, m, o); }
    }
  }

  lemma NoneAtFirst(s: Setting, items: seq<InputItem>)
    ensures !AnyAwaited(s, items, 0)
  {
  }

  lemma NothingHeld(p: Progress)
    requires Settled(p) && p.awaiting == {}
    ensures !Holding(p)
  {
  }

  /** An item's step lets a message out exactly when one is held or given and no call is awaiting its output any
      more. */
  lemma LandsMeans(s: Setting, items: seq<InputItem>, n: nat)
    requires n < |items|
    ensures Lands(s, items, n) <==>
            After(s, items, n + 1).awaiting == {} && (Holding(After(s, items, n)) || GivesPlain(s.codec, items[n]))
  {
    hide AnyAwaited, After, GivesPlain, Holding;
    HeldExactly(s, items, n);
    AwaitingMeans(s, items, n + 1);
    if m: nat :| LandsAt(s, items, m, n) {
      if m < n { assert HeldSince(s, items, m, n); }
    }
    if !AnyAwaited(s, items, n + 1) {
      if m: nat :| HeldSince(s, items, m, n) { assert LandsAt(s, items, m, n); }
      if GivesPlain(s.codec, items[n]) { assert LandsAt(s, items, n, n); }
    }
  }

  // ---------- what a step adds ----------

  predicate AnyPlain(msgs: seq<Msg>, from: nat) {
    exists k :: from <= k < |msgs| && Plain(msgs[k])
  }

  /** A step appends messages or adds a call to the last one; it appends a plain message exactly when one gets out. */
  lemma StepAdds(s: Setting, outputs: set<string>, p: Progress, it: InputItem) returns (added: seq<Msg>)
    requires Settled(p) && AllRegular(p.deferred)
    requires p.joining ==> p.out != [] && p.out[|p.out| - 1].CallsMsg?
    ensures var q := Step(s, outputs, p, it);
            && q.out == (if it.CallIn? && p.joining
                         then p.out[|p.out| - 1 := AddCall(p.out[|p.out| - 1], CallOfItem(s.codec, it))]
                         else p.out + added)
            && (it.CallIn? && p.joining ==> added == [])
            && (AnyPlain(added, 0) <==> q.awaiting == {} && (Holding(p) || GivesPlain(s.codec, it)))
  {
    hide CallOfItem, ResultOfItem, MediaOfItem, RegularOfItem;
    var q := Step(s, outputs, p, it);
    added := if it.CallIn? && p.joining then [] else q.out[|p.out|..];
    if it.CallIn? {
      if !p.joining { assert added[0].CallsMsg?; }
    } else if it.OutputIn? {
      OutputAdds(s, p.(joining := false), it, added);
    } else if IsRegular(it) {
      RegularAdds(s, p.(joining := false), it, added);
    }
  }

  lemma OutputAdds(s: Setting, p: Progress, it: InputItem, added: seq<Msg>)
    requires it.OutputIn? && AllRegular(p.deferred)
    requires var q := StepOutput(s, p, it); |q.out| >= |p.out| && added == q.out[|p.out|..]
    ensures var q := StepOutput(s, p, it);
            && q.out == p.out + added && added != [] && added[0] == ResultOfItem(s.codec, it)
            && (AnyPlain(added, 0) <==> q.awaiting == {} && (Holding(p) || MediaOfItem(s.codec, it) != []))
  {
    hide ResultOfItem, MediaOfItem;
    ResultIsTraffic(s, it);
    var q := StepOutput(s, p, it);
    var media := p.media + MediaOfItem(s.codec, it);
    var flushed := (if media == [] then [] else [MediaMsg(media)]) + p.deferred;
    if q.awaiting == {} {
      assert added == [ResultOfItem(s.codec, it)] + flushed;
      if media != [] { assert Plain(added[1]); } else if p.deferred != [] { assert added[1] == p.deferred[0]; }
    } else {
      assert added == [ResultOfItem(s.codec, it)];
    }
  }

  lemma RegularAdds(s: Setting, p: Progress, it: InputItem, added: seq<Msg>)
    requires IsRegular(it) && Settled(p)
    requires var q := StepRegular(s, p, it); |q.out| >= |p.out| && added == q.out[|p.out|..]
    ensures StepRegular(s, p, it).out == p.out + added && (AnyPlain(added, 0) <==> p.awaiting == {})
  {
    hide RegularOfItem;
    RegularIsRegular(s.source, it, p.pending);
    if p.awaiting == {} {
      assert added == [RegularOfItem(s.source, it, p.pending)];
      assert Plain(added[0]);
    }
  }

  // ---------- windows ----------

  lemma AnyPlainAppend(a: seq<Msg>, b: seq<Msg>, from: nat)
    requires from <= |a|
    ensures AnyPlain(a + b, from) <==> AnyPlain(a, from) || AnyPlain(b, 0)
  {
    hide Plain;
    if k :| from <= k < |a| && Plain(a[k]) { assert (a + b)[k] == a[k]; }
    if k :| 0 <= k < |b| && Plain(b[k]) { assert (a + b)[|a| + k] == b[k]; }
    if k :| from <= k < |a + b| && Plain((a + b)[k]) {
      if k < |a| { assert a[k] == (a + b)[k]; } else { assert b[k - |a|] == (a + b)[k]; }
    }
  }

  /** A call added to the last message makes no message plain. */
  lemma AnyPlainJoined(a: seq<Msg>, call: ToolCall, from: nat)
    requires a != [] && a[|a| - 1].CallsMsg?
    ensures AnyPlain(a[|a| - 1 := AddCall(a[|a| - 1], call)], from) <==> AnyPlain(a, from)
  {
    var b := a[|a| - 1 := AddCall(a[|a| - 1], call)];
    if k :| from <= k < |a| && Plain(a[k]) { assert b[k] == a[k]; }
    if k :| from <= k < |b| && Plain(b[k]) { assert a[k] == b[k]; }
  }

  /** What every step keeps for StepAdds. */
  lemma AfterJoins(s: Setting, items: seq<InputItem>, n: nat)
    requires n <= |items|
    ensures var p := After(s, items, n);
            && Settled(p) && AllRegular(p.deferred)
            && (p.joining <==> n > 0 && items[n - 1].CallIn?)
            && (p.joining ==> p.out != [] && p.out[|p.out| - 1].CallsMsg?)
  {
    hide After;
    AfterHeld(s, items, n);
    AfterOrderly(s, items, n);
  }

  /** Some message went out with an item between `h` and `n`. */
  ghost predicate LandsBetween(s: Setting, items: seq<InputItem>, h: nat, n: nat) {
    exists k :: h < k < n && Lands(s, items, k)
  }

  /** From a call on: its message stays where it is, and a plain message follows exactly when one went out since. */
  lemma {:induction false} WindowSoFar(s: Setting, items: seq<InputItem>, h: nat, n: nat)
    requires h < n <= |items| && items[h].CallIn?
    ensures var i, out := |After(s, items, h + 1).out|, After(s, items, n).out;
            && 1 <= i <= |out| && HasCall(out[i - 1], CallOfItem(s.codec, items[h]).id)
            && (AnyPlain(out, i) <==> LandsBetween(s, items, h, n))
  {
    hide After, Step, Lands, LandsBetween, Settled, AllRegular, Holding, GivesPlain, CallOfItem, AddCall, AnyPlain,
         HasCall;
    if n == h + 1 {
      CallIsLast(s, items, h);
      NothingSince(s, items, h);
    } else {
      WindowSoFar(s, items, h, n - 1);
      var p, it := After(s, items, n - 1), items[n - 1];
      AfterJoins(s, items, n - 1);
      LandsMeans(s, items, n - 1);
      LandsBetweenStep(s, items, h, n);
      var added := StepAdds(s, OutputIDs(items), p, it);
      AfterIsStep(s, items, n);
      var call := if it.CallIn? then CallOfItem(s.codec, it) else ToolCall("", "", "");
      OneStepOn(p.out, After(s, items, n).out, added, it.CallIn? && p.joining, call,
                |After(s, items, h + 1).out|, CallOfItem(s.codec, items[h]).id);
    }
  }

  lemma OneStepOn(before: seq<Msg>, out: seq<Msg>, added: seq<Msg>, joins: bool, call: ToolCall, i: nat, c: string)
    requires 1 <= i <= |before| && HasCall(before[i - 1], c)
    requires joins ==> added == [] && before[|before| - 1].CallsMsg?
    requires out == if joins then before[|before| - 1 := AddCall(before[|before| - 1], call)] else before + added
    ensures i <= |out| && HasCall(out[i - 1], c) && (AnyPlain(out, i) <==> AnyPlain(before, i) || AnyPlain(added, 0))
  {
    hide AnyPlain, HasCall, AddCall;
    if joins {
      NoneInNone();
      AnyPlainJoined(before, call, i);
      JoinedHas(before[|before| - 1], call, c);
    } else {
      AnyPlainAppend(before, added, i);
    }
  }

  lemma NoneInNone()
    ensures !AnyPlain([], 0)
  {
  }

  lemma NothingSince(s: Setting, items: seq<InputItem>, h: nat)
    requires h < |items|
    ensures !LandsBetween(s, items, h, h + 1) && !AnyPlain(After(s, items, h + 1).out, |After(s, items, h + 1).out|)
  {
    hide After;
  }

  lemma LandsBetweenStep(s: Setting, items: seq<InputItem>, h: nat, n: nat)
    requires h + 1 < n <= |items|
    ensures LandsBetween(s, items, h, n) <==> LandsBetween(s, items, h, n - 1) || Lands(s, items, n - 1)
  {
    hide Lands;
  }

  /** Right after a call its message is the last one. */
  lemma CallIsLast(s: Setting, items: seq<InputItem>, h: nat)
    requires h < |items| && items[h].CallIn?
    ensures var out := After(s, items, h + 1).out;
            out != [] && HasCall(out[|out| - 1], CallOfItem(s.codec, items[h]).id)
  {
    hide After, CallOfItem;
    AfterJoins(s, items, h);
    AfterIsStep(s, items, h + 1);
    var p, call := After(s, items, h), CallOfItem(s.codec, items[h]);
    if p.joining {
      JoinedHas(p.out[|p.out| - 1], call, call.id);
    } else {
      assert After(s, items, h + 1).out[|p.out|].calls[0] == call;
    }
  }

  /** Messages in front of the last one, or before any when no calls can join it, are final. */
  lemma {:induction false} PrefixStays(s: Setting, items: seq<InputItem>, k: nat, n: nat, front: seq<Msg>)
    requires k <= n <= |items| && front <= After(s, items, k).out
    requires After(s, items, k).joining ==> |After(s, items, k).out| > |front|
    ensures front <= After(s, items, n).out
    ensures After(s, items, n).joining ==> |After(s, items, n).out| > |front|
  {
    hide After, Settled, AllRegular, Holding, GivesPlain, CallOfItem, AddCall, Step, AnyPlain;
    if k < n {
      PrefixStays(s, items, k, n - 1, front);
      var p, it := After(s, items, n - 1), items[n - 1];
      AfterJoins(s, items, n - 1);
      AfterJoins(s, items, n);
      AfterIsStep(s, items, n);
      var added := StepAdds(s, OutputIDs(items), p, it);
      if it.CallIn? && !p.joining { NewMessage(s, OutputIDs(items), p, it); }
    }
  }

  lemma NewMessage(s: Setting, outputs: set<string>, p: Progress, it: InputItem)
    requires it.CallIn? && !p.joining
    ensures |Step(s, outputs, p, it).out| == |p.out| + 1
  {
  }

  lemma ParsedExtends(s: Setting, items: seq<InputItem>)
    requires FirstError(items, 0).None?
    ensures Parsed(s, ItemsInput(items)).Ok? && After(s, items, |items|).out <= Parsed(s, ItemsInput(items)).value
  {
    hide After;
  }

  /** A result and everything before it are in the converted history as they stand. */
  lemma ResultStands(s: Setting, items: seq<InputItem>, k: nat)
    requires FirstError(items, 0).None? && k < |items| && items[k].OutputIn?
    ensures Parsed(s, ItemsInput(items)).Ok?
    ensures After(s, items, k).out + [ResultOfItem(s.codec, items[k])] <= Parsed(s, ItemsInput(items)).value
  {
    hide After, Parsed, ResultOfItem, MediaOfItem, Settled, AllRegular;
    var p := After(s, items, k);
    var front := p.out + [ResultOfItem(s.codec, items[k])];
    AfterJoins(s, items, k);
    AfterJoins(s, items, k + 1);
    AfterIsStep(s, items, k + 1);
    ResultIsAdded(s, OutputIDs(items), p, items[k]);
    PrefixStays(s, items, k + 1, |items|, front);
    ParsedExtends(s, items);
  }

  lemma ResultIsAdded(s: Setting, outputs: set<string>, p: Progress, it: InputItem)
    requires it.OutputIn?
    ensures p.out + [ResultOfItem(s.codec, it)] <= Step(s, outputs, p, it).out
  {
    hide ResultOfItem, MediaOfItem;
  }

  lemma PlainOrTraffic(msgs: seq<Msg>, i: nat, j: nat)
    requires 1 <= i <= j <= |msgs|
    ensures OnlyTraffic(msgs, i - 1, j) <==> !AnyPlain(msgs[..j], i)
  {
    if k :| i <= k < j && Plain(msgs[..j][k]) { assert msgs[k] == msgs[..j][k]; }
    if !OnlyTraffic(msgs, i - 1, j) {
      var k :| i - 1 < k < j && !msgs[k].IsTraffic();
      assert Plain(msgs[..j][k]);
    }
  }

  /**
   The window of a call and an output after it, exactly, for every input and every call id, empty ones included: between
   the message with the call and the result stand only assistant calls and tool results, unless the message of some item
   goes out with an item in between, because no call is awaiting its output there.
   */
  lemma WindowExactly(s: Setting, items: seq<InputItem>, h: nat, k: nat) returns (i: nat, j: nat)
    requires FirstError(items, 0).None? && h < k < |items| && items[h].CallIn? && items[k].OutputIn?
    ensures Parsed(s, ItemsInput(items)).Ok?
    ensures var msgs := Parsed(s, ItemsInput(items)).value;
            && i < j < |msgs| && HasCall(msgs[i], CallOfItem(s.codec, items[h]).id)
            && msgs[j] == ResultOfItem(s.codec, items[k])
            && (OnlyTraffic(msgs, i, j) <==> !LandsBetween(s, items, h, k))
  {
    hide After, Parsed, ResultOfItem, CallOfItem, HasCall, OnlyTraffic, AnyPlain, LandsBetween;
    var out := After(s, items, k).out;
    ResultStands(s, items, k);
    WindowSoFar(s, items, h, k);
    var msgs := Parsed(s, ItemsInput(items)).value;
    i, j := |After(s, items, h + 1).out| - 1, |out|;
    assert msgs[..j] == out;
    assert msgs[i] == out[i];
    PlainOrTraffic(msgs, i + 1, j);
  }

  /** A call with a non-empty id keeps everything out until its first output: nothing goes out while it is awaited. */
  lemma AwaitedShuts(s: Setting, items: seq<InputItem>, h: nat, k: nat)
    requires h < k < |items| && items[h].CallIn? && CallOfItem(s.codec, items[h]).id != ""
    requires Answers(items[k], CallOfItem(s.codec, items[h]).id)
    requires forall n :: h < n < k ==> !Answers(items[n], CallOfItem(s.codec, items[h]).id)
    ensures !LandsBetween(s, items, h, k)
  {
    hide CallOfItem, GivesPlain;
    var c := CallOfItem(s.codec, items[h]).id;
    forall n | h < n < k ensures !Lands(s, items, n) {
      assert OpenCall(s, items, h, n + 1, c);
      assert Awaited(s, items, n + 1, c);
      assert AnyAwaited(s, items, n + 1);
    }
  }

  /** An empty call id is never awaited, so a message right inside its window comes in between: for every setting. */
  lemma EmptyCallIDUnguarded(s: Setting) returns (i: nat, j: nat)
    ensures var items := [CallIn(FunctionKind, "", "", "f", "", Some(Str("{}")), ""),
                          MessageIn("user", Some(Str("hi"))),
                          OutputIn("", None, None)];
            && Parsed(s, ItemsInput(items)).Ok?
            && var msgs := Parsed(s, ItemsInput(items)).value;
               i < j < |msgs| && HasCall(msgs[i], "") && IsResult(msgs[j], "") && !OnlyTraffic(msgs, i, j)
  {
    hide CallOfItem, ResultOfItem, Parsed, HasCall, OnlyTraffic;
    var call, hi, output := CallIn(FunctionKind, "", "", "f", "", Some(Str("{}")), ""),
                            MessageIn("user", Some(Str("hi"))), OutputIn("", None, None);
    var items := [call, hi, output];
    assert FirstError(items, 0).None?;
    assert forall c :: c !in OutputIDs(items);
    assert forall n: nat :: n <= 3 ==> !AnyAwaited(s, items, n);
    assert LandsAt(s, items, 1, 1);
    assert Lands(s, items, 1);
    i, j := WindowExactly(s, items, 0, 2);
    FunctionCallID(s.codec, call);
    ResultIsTraffic(s, output);
  }

  lemma FunctionCallID(c: Codec, it: InputItem)
    requires it.CallIn? && it.kind.FunctionKind?
    ensures CallOfItem(c, it).id == it.callID
  {
  }

  // ---------- runs of calls ----------

  /** The calls of the items from `a` to `b`. */
  function RunCalls(c: Codec, items: seq<InputItem>, a: nat, b: nat): seq<ToolCall>
    requires a <= b <= |items| && forall n :: a <= n < b ==> items[n].CallIn?
  {
    if a == b then [] else RunCalls(c, items, a, b - 1) + [CallOfItem(c, items[b - 1])]
  }

  /** The results of the outputs from item `b` to item `n`. */
  function ResultsIn(c: Codec, items: seq<InputItem>, b: nat, n: nat): seq<Msg>
    requires b <= n <= |items|
  {
    if b == n then []
    else ResultsIn(c, items, b, n - 1) + if items[n - 1].OutputIn? then [ResultOfItem(c, items[n - 1])] else []
  }

  /** The items from `a` to `b` are calls, and no call stands right before them. */
  predicate IsRunOfCalls(items: seq<InputItem>, a: nat, b: nat) {
    && a < b <= |items| && (forall n :: a <= n < b ==> items[n].CallIn?)
    && (a == 0 || !items[a - 1].CallIn?)
  }

  /** A run of calls becomes one message with all of them. */
  lemma {:induction false} RunMessage(s: Setting, items: seq<InputItem>, a: nat, n: nat)
    requires IsRunOfCalls(items, a, n)
    ensures After(s, items, n).out
         == After(s, items, a).out + [CallsMsg(RunReasoning(s, items, a), RunCalls(s.codec, items, a, n))]
  {
    hide CallOfItem, After, Settled, AllRegular;
    AfterJoins(s, items, n - 1);
    AfterIsStep(s, items, n);
    var p, call := After(s, items, n - 1), CallOfItem(s.codec, items[n - 1]);
    if n == a + 1 {
      PendingIs(s, items, a);
      assert RunCalls(s.codec, items, a, a) + [call] == [call];
    } else {
      RunMessage(s, items, a, n - 1);
      var start := After(s, items, a).out;
      var m := CallsMsg(RunReasoning(s, items, a), RunCalls(s.codec, items, a, n - 1));
      assert p.out[|p.out| - 1 := AddCall(m, call)] == start + [AddCall(m, call)];
    }
  }

  lemma PendingIs(s: Setting, items: seq<InputItem>, n: nat)
    requires n <= |items|
    ensures After(s, items, n).pending == PendingAt(items, n)
  {
    hide After;
    AfterHeld(s, items, n);
  }

  /** While a call of the run is awaited and no other call comes, only results go out. */
  lemma {:induction false} OnlyResults(s: Setting, items: seq<InputItem>, b: nat, n: nat, c: string)
    requires b <= n <= |items| && c in After(s, items, b).awaiting
    requires forall m :: b <= m < n ==> !items[m].CallIn? && !Answers(items[m], c)
    ensures c in After(s, items, n).awaiting
    ensures After(s, items, n).out == After(s, items, b).out + ResultsIn(s.codec, items, b, n)
  {
    hide After, ResultOfItem, MediaOfItem, RegularOfItem;
    if b < n {
      OnlyResults(s, items, b, n - 1, c);
      AfterIsStep(s, items, n);
      StepAwaited(s, OutputIDs(items), After(s, items, n - 1), items[n - 1], c);
    }
  }

  lemma StepAwaited(s: Setting, outputs: set<string>, p: Progress, it: InputItem, c: string)
    requires c in p.awaiting && !it.CallIn? && !Answers(it, c)
    ensures var q := Step(s, outputs, p, it);
            && c in q.awaiting
            && q.out == p.out + if it.OutputIn? then [ResultOfItem(s.codec, it)] else []
  {
    hide ResultOfItem, MediaOfItem, RegularOfItem;
    assert p.out + [] == p.out;
  }

  /**
   A run of calls answered before the next one: in the converted history its message, with all its calls, is immediately
   followed by the results of the outputs up to the one that answers the call of item `h`, and by nothing else.
   */
  lemma AnsweredRun(s: Setting, items: seq<InputItem>, a: nat, h: nat, b: nat, k: nat)
    requires FirstError(items, 0).None? && IsRunOfCalls(items, a, b) && a <= h < b <= k < |items|
    requires var c := CallOfItem(s.codec, items[h]).id;
             && c != "" && Answers(items[k], c)
             && forall n :: b <= n < k ==> !items[n].CallIn? && !Answers(items[n], c)
    ensures Parsed(s, ItemsInput(items)).Ok?
    ensures var msgs, i, results := Parsed(s, ItemsInput(items)).value, |After(s, items, a).out|,
                                    ResultsIn(s.codec, items, b, k + 1);
            && i + 1 + |results| <= |msgs|
            && msgs[i] == CallsMsg(RunReasoning(s, items, a), RunCalls(s.codec, items, a, b))
            && msgs[i + 1..i + 1 + |results|] == results
            && forall m :: 0 <= m < |results| ==> results[m].ResultMsg?
  {
    hide After, Parsed, CallOfItem, ResultOfItem, RunCalls, RunReasoning;
    var c := CallOfItem(s.codec, items[h]).id;
    RunMessage(s, items, a, b);
    assert OpenCall(s, items, h, b, c);
    assert Awaited(s, items, b, c);
    AwaitingIsAwaited(s, items, b);
    OnlyResults(s, items, b, k, c);
    ResultStands(s, items, k);
    AreResults(s, items, b, k + 1);
    var before, run := After(s, items, a).out, [CallsMsg(RunReasoning(s, items, a), RunCalls(s.codec, items, a, b))];
    Between(before, run, ResultsIn(s.codec, items, b, k), [ResultOfItem(s.codec, items[k])],
            Parsed(s, ItemsInput(items)).value);
  }

  lemma {:induction false} AreResults(s: Setting, items: seq<InputItem>, b: nat, n: nat)
    requires b <= n <= |items|
    ensures forall m :: 0 <= m < |ResultsIn(s.codec, items, b, n)| ==> ResultsIn(s.codec, items, b, n)[m].ResultMsg?
  {
    hide ResultOfItem;
    if b < n {
      AreResults(s, items, b, n - 1);
      if items[n - 1].OutputIn? { ResultIsTraffic(s, items[n - 1]); }
    }
  }

  lemma Between(before: seq<Msg>, run: seq<Msg>, results: seq<Msg>, last: seq<Msg>, msgs: seq<Msg>)
    requires before + run + results + last <= msgs && |run| == 1
    ensures var i := |before|;
            && i + 1 + |results + last| <= |msgs| && msgs[i] == run[0]
            && msgs[i + 1..i + 1 + |results + last|] == results + last
  {
    var all := before + run + results + last;
    assert msgs[..|all|] == all;
    assert all[|before| + 1..] == results + last;
  }
}
