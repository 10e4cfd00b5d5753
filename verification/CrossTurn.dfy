/**
 Reasoning over turns: what saving a finished turn puts into the cache, and what the next request gets back out of it
 when it replays that turn. (server/server.go saveReasoning, convert/request.go lookupCall and lookupContent)
 */
module CrossTurn {
  import opened Common
  import opened Json
  import opened Protocol
  import Tools
  import opened InputSpec
  import opened InputProofs
  import opened LruSpec
  import L = Lru
  import R = ReasoningSource
  import Expand
  import Response
  import RoundTrip

  // ---------- saving a turn ----------

  function NonEmptyIDs(calls: seq<ToolCall>): seq<string> {
    if calls == [] then []
    else
      var n := |calls| - 1;
      NonEmptyIDs(calls[..n]) + if calls[n].id != "" then [calls[n].id] else []
  }

  method ToolCallIDs(calls: seq<ToolCall>) returns (ids: seq<string>)
    ensures ids == NonEmptyIDs(calls)
  {
    ids := [];
    for i := 0 to |calls|
      invariant ids == NonEmptyIDs(calls[..i])
    {
      assert calls[..i + 1][..i] == calls[..i];
      if calls[i].id != "" {
        ids := ids + [calls[i].id];
      }
    }
    assert calls[..|calls|] == calls;
  }

  /** The writes to the call index when a turn is saved. */
  function CallWrites(callIDs: seq<string>, reasoning: string, t: int): seq<Op<string>> {
    if callIDs == [] || reasoning == "" then []
    else
      var n := |callIDs| - 1;
      CallWrites(callIDs[..n], reasoning, t) + if callIDs[n] == "" then [] else [SetOp(callIDs[n], reasoning, t)]
  }

  /** The writes to the text index. */
  function TextWrites(hash: string -> int, content: string, reasoning: string, t: int): seq<Op<int>> {
    if content == "" || reasoning == "" then [] else [SetOp(hash(content), reasoning, t)]
  }

  method SaveReasoning(cache: L.Cache, callIDs: seq<string>, content: string, reasoning: string, now: int)
    requires cache.Valid()
    modifies cache.Repr()
    ensures cache.Valid() && fresh(cache.Repr() - old(cache.Repr()))
    ensures cache.byCall.View()
         == Run(old(cache.byCall.View()), CallWrites(callIDs, reasoning, now), cache.byCall.cap, cache.byCall.ttl)
    ensures cache.byHash.View()
         == Run(old(cache.byHash.View()), TextWrites(cache.hash, content, reasoning, now), cache.byHash.cap,
                cache.byHash.ttl)
  {
    hide Set, Run, CallWrites, L.Cells, L.InStep;
    NothingWritten(cache.byCall.View(), callIDs, reasoning, now, cache.byCall.cap, cache.byCall.ttl);
    OneRun(cache.byHash.View(), cache.hash(content), reasoning, now, cache.byHash.cap, cache.byHash.ttl);
    if reasoning == "" {
      return;
    }
    for i := 0 to |callIDs|
      invariant cache.Valid() && fresh(cache.Repr() - old(cache.Repr()))
      invariant cache.byHash.View() == old(cache.byHash.View())
      invariant cache.byCall.View()
             == Run(old(cache.byCall.View()), CallWrites(callIDs[..i], reasoning, now), cache.byCall.cap,
                    cache.byCall.ttl)
    {
      OneMoreWrite(old(cache.byCall.View()), callIDs, i, reasoning, now, cache.byCall.cap, cache.byCall.ttl);
      cache.SaveCall(callIDs[i], reasoning, now);
    }
    assert callIDs[..|callIDs|] == callIDs;
    cache.SaveContent(content, reasoning, now);
  }

  lemma OneMoreWrite(l: seq<Cell<string>>, ids: seq<string>, i: nat, reasoning: string, t: int, cap: nat, ttl: int)
    requires i < |ids| && reasoning != ""
    ensures var before := Run(l, CallWrites(ids[..i], reasoning, t), cap, ttl);
            Run(l, CallWrites(ids[..i + 1], reasoning, t), cap, ttl)
            == if ids[i] == "" then before else Set(before, Cell(ids[i], reasoning, t + ttl), cap)
  {
    hide Set;
    assert ids[..i + 1][..i] == ids[..i];
    var writes := CallWrites(ids[..i], reasoning, t);
    if ids[i] != "" {
      assert (writes + [SetOp(ids[i], reasoning, t)])[..|writes|] == writes;
    } else {
      assert CallWrites(ids[..i + 1], reasoning, t) == writes;
    }
  }

  lemma NothingWritten(l: seq<Cell<string>>, ids: seq<string>, reasoning: string, t: int, cap: nat, ttl: int)
    ensures Run(l, CallWrites(ids[..0], reasoning, t), cap, ttl) == l
    ensures reasoning == "" ==> Run(l, CallWrites(ids, reasoning, t), cap, ttl) == l
  {
  }

  lemma OneRun(l: seq<Cell<int>>, key: int, val: string, t: int, cap: nat, ttl: int)
    ensures Run(l, [], cap, ttl) == l && Run(l, [SetOp(key, val, t)], cap, ttl) == Set(l, Cell(key, val, t + ttl), cap)
  {
    hide Set;
    assert [SetOp(key, val, t)][..0] == [];
  }

  // ---------- what the saved turn leaves behind ----------

  predicate Rewrites<K(==)>(ops: seq<Op<K>>, key: K) {
    exists op <- ops :: op.SetOp? && op.key == key
  }

  lemma {:induction false} LaterOps<K(!new)>(before: seq<Op<K>>, later: seq<Op<K>>, key: K)
    requires !Rewrites(later, key)
    ensures LastSet(before + later, key) == LastSet(before, key)
  {
    if later == [] {
      assert before + later == before;
    } else {
      var n := |later| - 1;
      assert later[n] in later && forall op <- later[..n] :: op in later;
      assert (before + later)[..|before + later| - 1] == before + later[..n];
      LaterOps(before, later[..n], key);
    }
  }

  lemma {:induction false} SavedLast(before: seq<Op<string>>, ids: seq<string>, reasoning: string, t: int, id: string)
    requires id in ids && id != "" && reasoning != ""
    ensures LastSet(before + CallWrites(ids, reasoning, t), id) == Some((reasoning, t))
  {
    var n := |ids| - 1;
    var writes := CallWrites(ids[..n], reasoning, t);
    if ids[n] == id {
      var all := before + (writes + [SetOp(id, reasoning, t)]);
      assert all[..|all| - 1] == before + writes && all[|all| - 1] == SetOp(id, reasoning, t);
    } else {
      assert id in ids[..n];
      SavedLast(before, ids[..n], reasoning, t, id);
      if ids[n] != "" {
        var all := before + (writes + [SetOp(ids[n], reasoning, t)]);
        assert all[..|all| - 1] == before + writes;
      } else {
        assert CallWrites(ids, reasoning, t) == writes;
      }
    }
  }

  /** What parseInput can look up at the moment `now`, after these operations on the two indexes. */
  function Snapshot(hash: string -> int, calls: seq<Op<string>>, texts: seq<Op<int>>, cap: nat, ttl: int,
                    now: int): Source {
    R.SourceOf(hash, Run([], calls, cap, ttl), Run([], texts, cap, ttl), now)
  }

  /** It is what the cache itself shows after them, and so what a conversion that reads the cache finds. */
  lemma CacheShowsSnapshot(cache: L.Cache, calls: seq<Op<string>>, texts: seq<Op<int>>, now: int)
    requires cache.byCall.cap == cache.byHash.cap && cache.byCall.ttl == cache.byHash.ttl
    requires cache.byCall.View() == Run([], calls, cache.byCall.cap, cache.byCall.ttl)
    requires cache.byHash.View() == Run([], texts, cache.byCall.cap, cache.byCall.ttl)
    ensures R.Shown(Some(cache), now) == Snapshot(cache.hash, calls, texts, cache.byCall.cap, cache.byCall.ttl, now)
  {
  }

  // ---------- the message it comes back in ----------

  /** The message of a run of calls: its reasoning and the call it starts with. */
  predicate OpensWith(m: Msg, reasoning: string, call: ToolCall) {
    m.CallsMsg? && m.reasoning == reasoning && m.calls != [] && m.calls[0] == call
  }

  lemma {:induction false} OpenerStays(s: Setting, items: seq<InputItem>, i: nat, n: nat)
    requires i < n <= |items| && items[i].CallIn? && !Continues(items, i)
    ensures var k := |TrafficOf(s, items, i)|;
            && k < |TrafficOf(s, items, n)|
            && OpensWith(TrafficOf(s, items, n)[k], RunReasoning(s, items, i), CallOfItem(s.codec, items[i]))
  {
    hide CallOfItem, RunReasoning, ResultOfItem, OpensWith, Joined;
    var k := |TrafficOf(s, items, i)|;
    if n == i + 1 {
      Opened(RunReasoning(s, items, i), CallOfItem(s.codec, items[i]));
    } else {
      OpenerStays(s, items, i, n - 1);
      if items[n - 1].CallIn? && Continues(items, n - 1) {
        JoinedOpens(TrafficOf(s, items, n - 1), CallOfItem(s.codec, items[n - 1]), k, RunReasoning(s, items, i),
                    CallOfItem(s.codec, items[i]));
      }
    }
  }

  lemma Opened(reasoning: string, call: ToolCall)
    ensures OpensWith(CallsMsg(reasoning, [call]), reasoning, call)
  {
  }

  lemma JoinedOpens(msgs: seq<Msg>, call: ToolCall, k: nat, reasoning: string, first: ToolCall)
    requires k < |msgs| && OpensWith(msgs[k], reasoning, first)
    ensures |Joined(msgs, call)| == |msgs| && OpensWith(Joined(msgs, call)[k], reasoning, first)
  {
  }

  lemma {:induction false} TrafficIsIn(msgs: seq<Msg>, m: Msg)
    requires m in Traffic(msgs)
    ensures m in msgs
  {
    var n := |msgs| - 1;
    if m in Traffic(msgs[..n]) { TrafficIsIn(msgs[..n], m); }
  }

  lemma {:induction false} RegularIsIn(msgs: seq<Msg>, m: Msg)
    requires m in Regulars(msgs)
    ensures m in msgs
  {
    var n := |msgs| - 1;
    if m in Regulars(msgs[..n]) { RegularIsIn(msgs[..n], m); }
  }

  lemma {:induction false} RegularStays(s: Setting, items: seq<InputItem>, i: nat, n: nat)
    requires i < n <= |items| && IsRegular(items[i])
    ensures RegularOfItem(s.source, items[i], PendingAt(items, i)) in RegularsOf(s, items, n)
  {
    hide RegularOfItem, PendingAt;
    if n > i + 1 { RegularStays(s, items, i, n - 1); }
  }

  /** The converted history has a message opening with each first call of a run, and it carries the run's reasoning. */
  lemma OpenerIn(s: Setting, items: seq<InputItem>, i: nat) returns (m: Msg)
    requires FirstError(items, 0).None? && i < |items| && items[i].CallIn? && !Continues(items, i)
    ensures Parsed(s, ItemsInput(items)).Ok? && m in Parsed(s, ItemsInput(items)).value
    ensures OpensWith(m, RunReasoning(s, items, i), CallOfItem(s.codec, items[i]))
  {
    hide CallOfItem, RunReasoning, Parsed, TrafficOf;
    Conservation(s, items);
    OpenerStays(s, items, i, |items|);
    m := TrafficOf(s, items, |items|)[|TrafficOf(s, items, i)|];
    TrafficIsIn(Parsed(s, ItemsInput(items)).value, m);
  }

  /**
   A saved turn comes back. When a later request replays a batch of calls whose first one, whichever it is, was saved
   with a turn's reasoning, the assistant message built for the batch carries exactly that reasoning as long as the
   cache keeps the call and it has not expired; otherwise it carries the summary pending at that point.
   */
  lemma CallsCarryReasoning(codec: Codec, hash: string -> int, items: seq<InputItem>, i: nat, before: seq<Op<string>>,
                            ids: seq<string>, reasoning: string, t: int, later: seq<Op<string>>, texts: seq<Op<int>>,
                            cap: nat, ttl: int, now: int) returns (m: Msg)
    requires cap >= 1 && reasoning != "" && FirstError(items, 0).None?
    requires i < |items| && items[i].CallIn? && !Continues(items, i)
    requires var id := CallOfItem(codec, items[i]).id; id != "" && id in ids && !Rewrites(later, id)
    ensures var id := CallOfItem(codec, items[i]).id;
            var history := before + CallWrites(ids, reasoning, t) + later;
            var s := Setting(codec, Snapshot(hash, history, texts, cap, ttl, now));
            && Parsed(s, ItemsInput(items)).Ok? && m in Parsed(s, ItemsInput(items)).value
            && OpensWith(m, if Kept(history, id, cap, ttl) && now <= t + ttl then reasoning else PendingAt(items, i),
                         CallOfItem(codec, items[i]))
  {
    hide CallOfItem, Parsed, PendingAt, Kept, Peek, Run;
    var id := CallOfItem(codec, items[i]).id;
    var history := before + CallWrites(ids, reasoning, t) + later;
    var s := Setting(codec, Snapshot(hash, history, texts, cap, ttl, now));
    SavedLast(before, ids, reasoning, t, id);
    LaterOps(before + CallWrites(ids, reasoning, t), later, id);
    ReadsExactly(history, id, now, cap, ttl);
    m := OpenerIn(s, items, i);
  }

  /** The same for a replayed assistant text, looked up by its hash. */
  lemma TextCarriesReasoning(codec: Codec, hash: string -> int, items: seq<InputItem>, i: nat, calls: seq<Op<string>>,
                             before: seq<Op<int>>, content: string, reasoning: string, t: int, later: seq<Op<int>>,
                             cap: nat, ttl: int, now: int) returns (m: Msg)
    requires cap >= 1 && reasoning != "" && content != "" && FirstError(items, 0).None?
    requires i < |items| && IsAssistant(items[i]) && ContentToChat(items[i].content).0 == content
    requires !Rewrites(later, hash(content))
    ensures var history := before + TextWrites(hash, content, reasoning, t) + later;
            var s := Setting(codec, Snapshot(hash, calls, history, cap, ttl, now));
            && Parsed(s, ItemsInput(items)).Ok? && m in Parsed(s, ItemsInput(items)).value
            && m == RegularMsg("assistant", content, ContentToChat(items[i].content).1,
                               if Kept(history, hash(content), cap, ttl) && now <= t + ttl then reasoning
                               else PendingAt(items, i))
  {
    hide ContentToChat, Parsed, PendingAt, Kept, Peek, Run;
    var key := hash(content);
    var writes := TextWrites(hash, content, reasoning, t);
    var history := before + writes + later;
    var s := Setting(codec, Snapshot(hash, calls, history, cap, ttl, now));
    assert (before + writes)[..|before|] == before;
    LaterOps(before + writes, later, key);
    ReadsExactly(history, key, now, cap, ttl);
    Conservation(s, items);
    RegularStays(s, items, i, |items|);
    m := RegularOfItem(s.source, items[i], PendingAt(items, i));
    RegularIsIn(Parsed(s, ItemsInput(items)).value, m);
  }

  /** No eviction: while the turn's own calls and everything used since name fewer than `cap` other ids, every call of
      the turn is kept, the first replayed one among them. */
  lemma BatchIsKept(before: seq<Op<string>>, ids: seq<string>, reasoning: string, t: int, later: seq<Op<string>>,
                    id: string, cap: nat, ttl: int)
    requires cap >= 1 && reasoning != "" && id != "" && id in ids && !Rewrites(later, id)
    requires |OtherKeys(CallWrites(ids, reasoning, t) + later, id)| < cap && ReadInTime(later, id, t + ttl)
    ensures Kept(before + CallWrites(ids, reasoning, t) + later, id, cap, ttl)
  {
    hide Kept, LastSet, SinceSet, CallWrites, Rewrites, OtherKeys, ReadInTime;
    var writes := CallWrites(ids, reasoning, t);
    SavedLast(before, ids, reasoning, t, id);
    LaterOps(before + writes, later, id);
    SavedSince(before, ids, reasoning, t, later, id);
    FewSince(SinceSet(writes, id), writes, later, id, t + ttl);
    FewKeysKeep(before + writes + later, id, cap, ttl);
  }

  lemma SavedSince(before: seq<Op<string>>, ids: seq<string>, reasoning: string, t: int, later: seq<Op<string>>,
                   id: string)
    requires reasoning != "" && id != "" && id in ids && !Rewrites(later, id)
    ensures var writes := CallWrites(ids, reasoning, t);
            && SinceSet(before + writes + later, id) == SinceSet(writes, id) + later
            && !Rewrites(SinceSet(writes, id), id)
            && forall op <- SinceSet(writes, id) :: op in writes && op.SetOp?
  {
    hide LastSet, SinceSet, CallWrites, Rewrites;
    var writes := CallWrites(ids, reasoning, t);
    SavedLast([], ids, reasoning, t, id);
    assert [] + writes == writes;
    SinceOfSaved(before + writes, later, id);
    SinceStays(before, writes, id);
    SinceWithin(writes, id);
    SinceHasNoWrite(writes, id);
    SavedAreWrites(ids, reasoning, t);
  }

  lemma FewSince(since: seq<Op<string>>, writes: seq<Op<string>>, later: seq<Op<string>>, id: string, deadline: int)
    requires !Rewrites(since, id) && forall op <- since :: op in writes && op.SetOp?
    requires ReadInTime(later, id, deadline)
    ensures |OtherKeys(since + later, id)| <= |OtherKeys(writes + later, id)| && ReadInTime(since + later, id, deadline)
  {
    SmallerSet(OtherKeys(since + later, id), OtherKeys(writes + later, id));
  }

  lemma {:induction false} SinceStays<K(!new)>(before: seq<Op<K>>, ops: seq<Op<K>>, key: K)
    requires LastSet(ops, key).Some?
    ensures SinceSet(before + ops, key) == SinceSet(ops, key)
  {
    var n := |ops| - 1;
    assert (before + ops)[..|before + ops| - 1] == before + ops[..n];
    if !(ops[n].SetOp? && ops[n].key == key) { SinceStays(before, ops[..n], key); }
  }

  lemma {:induction false} SinceWithin<K(!new)>(ops: seq<Op<K>>, key: K)
    ensures forall op <- SinceSet(ops, key) :: op in ops
  {
    if ops != [] { SinceWithin(ops[..|ops| - 1], key); }
  }

  lemma {:induction false} SinceHasNoWrite<K(!new)>(ops: seq<Op<K>>, key: K)
    ensures !Rewrites(SinceSet(ops, key), key)
  {
    if ops != [] { SinceHasNoWrite(ops[..|ops| - 1], key); }
  }

  lemma {:induction false} SinceOfSaved<K(!new)>(ops: seq<Op<K>>, later: seq<Op<K>>, key: K)
    requires !Rewrites(later, key)
    ensures SinceSet(ops + later, key) == SinceSet(ops, key) + later
  {
    if later == [] {
      assert ops + later == ops;
    } else {
      var n := |later| - 1;
      assert later[n] in later && forall op <- later[..n] :: op in later;
      assert (ops + later)[..|ops + later| - 1] == ops + later[..n];
      SinceOfSaved(ops, later[..n], key);
    }
  }

  lemma {:induction false} SavedAreWrites(ids: seq<string>, reasoning: string, t: int)
    ensures forall op <- CallWrites(ids, reasoning, t) :: op.SetOp?
  {
    if ids != [] && reasoning != "" { SavedAreWrites(ids[..|ids| - 1], reasoning, t); }
  }

  // ---------- a whole turn ----------

  lemma {:induction false} FirstIsSaved(calls: seq<ToolCall>)
    requires calls != [] && calls[0].id != ""
    ensures calls[0].id in NonEmptyIDs(calls)
  {
    if |calls| > 1 { FirstIsSaved(calls[..|calls| - 1]); }
  }

  /** The text index still knows a saved text. */
  predicate TextKept(hash: string -> int, before: seq<Op<int>>, content: string, reasoning: string, t: int,
                     later: seq<Op<int>>, cap: nat, ttl: int)
  {
    && !Rewrites(later, hash(content))
    && Kept(before + TextWrites(hash, content, reasoning, t) + later, hash(content), cap, ttl)
  }

  /** The call index still knows a saved call. */
  predicate CallKept(before: seq<Op<string>>, ids: seq<string>, reasoning: string, t: int, later: seq<Op<string>>,
                     id: string, cap: nat, ttl: int)
  {
    !Rewrites(later, id) && Kept(before + CallWrites(ids, reasoning, t) + later, id, cap, ttl)
  }

  lemma SavedCallFound(hash: string -> int, before: seq<Op<string>>, ids: seq<string>, reasoning: string, t: int,
                       later: seq<Op<string>>, id: string, texts: seq<Op<int>>, cap: nat, ttl: int, now: int)
    requires cap >= 1 && reasoning != "" && id != "" && id in ids && now <= t + ttl
    requires CallKept(before, ids, reasoning, t, later, id, cap, ttl)
    ensures LookupCall(Snapshot(hash, before + CallWrites(ids, reasoning, t) + later, texts, cap, ttl, now), id)
        == reasoning
  {
    hide Kept, Peek, Run, LastSet, CallWrites, Rewrites;
    SavedLast(before, ids, reasoning, t, id);
    LaterOps(before + CallWrites(ids, reasoning, t), later, id);
    ReadsExactly(before + CallWrites(ids, reasoning, t) + later, id, now, cap, ttl);
  }

  lemma SavedTextFound(hash: string -> int, calls: seq<Op<string>>, before: seq<Op<int>>, content: string,
                       reasoning: string, t: int, later: seq<Op<int>>, cap: nat, ttl: int, now: int)
    requires cap >= 1 && reasoning != "" && content != "" && now <= t + ttl
    requires TextKept(hash, before, content, reasoning, t, later, cap, ttl)
    ensures var texts := before + TextWrites(hash, content, reasoning, t) + later;
            LookupContent(Snapshot(hash, calls, texts, cap, ttl, now), content) == reasoning
  {
    hide Kept, Peek, Run, Rewrites;
    var writes := TextWrites(hash, content, reasoning, t);
    assert (before + writes)[..|before|] == before;
    LaterOps(before + writes, later, hash(content));
    ReadsExactly(before + writes + later, hash(content), now, cap, ttl);
  }

  /**
   A turn survives the trip. A reply with reasoning is converted, saved, and replayed in a later request; as long as the
   caches keep its text and its first call, the request rebuilt from the replay is the assistant text and one message
   with all its calls, and both carry exactly the reasoning of the turn.
   */
  lemma TurnComesBack(codec: Codec, tools: Tools.ToolContext, id: string, m: Reply, status: Status, hash: string -> int,
                      calls: seq<Op<string>>, texts: seq<Op<int>>, t: int, laterCalls: seq<Op<string>>,
                      laterTexts: seq<Op<int>>, cap: nat, ttl: int, now: int)
    requires Lawful(codec) && Expand.LeadsBack(tools) && cap >= 1 && m.reasoning != "" && now <= t + ttl
    requires m.toolCalls != [] ==>
      m.toolCalls[0].id != ""
      && CallKept(calls, NonEmptyIDs(m.toolCalls), m.reasoning, t, laterCalls, m.toolCalls[0].id, cap, ttl)
    requires m.content != "" ==> TextKept(hash, texts, m.content, m.reasoning, t, laterTexts, cap, ttl)
    ensures var allCalls := calls + CallWrites(NonEmptyIDs(m.toolCalls), m.reasoning, t) + laterCalls;
            var allTexts := texts + TextWrites(hash, m.content, m.reasoning, t) + laterTexts;
            var s := Setting(codec, Snapshot(hash, allCalls, allTexts, cap, ttl, now));
            Parsed(s, ItemsInput(RoundTrip.Replay(Response.Output(codec, tools, id, m, status))))
            == Ok(WithReasoning(m, RoundTrip.CycledCalls(codec, tools, id, m.toolCalls)))
  {
    hide Parsed, Snapshot, CallKept, TextKept, RoundTrip.Replay, Response.Output, RoundTrip.Cycled, NonEmptyIDs,
         CallWrites, TextWrites, WithReasoning, RoundTrip.TurnMessages;
    var s := Setting(codec, Snapshot(hash, calls + CallWrites(NonEmptyIDs(m.toolCalls), m.reasoning, t) + laterCalls,
                                     texts + TextWrites(hash, m.content, m.reasoning, t) + laterTexts, cap, ttl, now));
    RoundTrip.ReplyComesBack(s, tools, id, m, status);
    if m.toolCalls != [] { RoundTrip.CallComesBack(codec, tools, id, m.toolCalls[0], 0); }
    KeptTurn(s, m, RoundTrip.CycledCalls(codec, tools, id, m.toolCalls), hash, calls, texts, t, laterCalls, laterTexts,
             cap, ttl, now);
  }

  /** The messages of a turn, each with the turn's reasoning. */
  function WithReasoning(m: Reply, calls: seq<ToolCall>): seq<Msg> {
    (if m.content != "" || m.refusal != "" then [RegularMsg("assistant", m.content, [], m.reasoning)] else [])
    + (if calls == [] then [] else [CallsMsg(m.reasoning, calls)])
  }

  lemma KeptTurn(s: Setting, m: Reply, back: seq<ToolCall>, hash: string -> int, calls: seq<Op<string>>,
                 texts: seq<Op<int>>, t: int, laterCalls: seq<Op<string>>, laterTexts: seq<Op<int>>, cap: nat, ttl: int,
                 now: int)
    requires cap >= 1 && m.reasoning != "" && now <= t + ttl && |back| == |m.toolCalls|
    requires m.toolCalls != [] ==>
      m.toolCalls[0].id == back[0].id != ""
      && CallKept(calls, NonEmptyIDs(m.toolCalls), m.reasoning, t, laterCalls, m.toolCalls[0].id, cap, ttl)
    requires m.content != "" ==> TextKept(hash, texts, m.content, m.reasoning, t, laterTexts, cap, ttl)
    requires s.source == Snapshot(hash, calls + CallWrites(NonEmptyIDs(m.toolCalls), m.reasoning, t) + laterCalls,
                                  texts + TextWrites(hash, m.content, m.reasoning, t) + laterTexts, cap, ttl, now)
    ensures RoundTrip.TurnMessages(s, m, back) == WithReasoning(m, back)
  {
    hide Snapshot, CallKept, TextKept, NonEmptyIDs, CallWrites, TextWrites;
    var ids := NonEmptyIDs(m.toolCalls);
    if m.toolCalls != [] {
      FirstIsSaved(m.toolCalls);
      SavedCallFound(hash, calls, ids, m.reasoning, t, laterCalls, m.toolCalls[0].id,
                     texts + TextWrites(hash, m.content, m.reasoning, t) + laterTexts, cap, ttl, now);
    }
    if m.content != "" {
      SavedTextFound(hash, calls + CallWrites(ids, m.reasoning, t) + laterCalls, texts, m.content, m.reasoning, t,
                     laterTexts, cap, ttl, now);
    }
  }
}
