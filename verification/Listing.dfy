/**
 Listing recorded sessions: a scan of the stores cached for a while, filtered, sorted, enriched and paged per request.
 (session/query.go)
 */
module Listing {
  import opened Common
  import Glob

  datatype Session = Session(
    tool: string, title: string, cwd: string, source: string, archived: bool, createdAt: int, updatedAt: int,
        tokens: int)

  datatype Query = Query(
    tools: seq<string>, archived: Option<bool>, text: string, cwd: string, source: string, since: int, byCreation: bool,
    limit: int, offset: int)

  datatype Source = Source(tool: string, description: string)

  datatype Page = Page(sessions: seq<Session>, total: nat, sources: seq<Source>)

  const TOOLS: seq<string> := ["codex", "claude", "pi", "opencode"]

  /** The readers of the stores and the text and token helpers, all outside this model. */
  datatype Stores = Stores(
    load: (string, int) -> (seq<Session>, string), lower: string -> string, enrich: Session -> Session)

  // ---------- filtering, sorting, paging ----------

  function Contains(s: string, sub: string): bool { Glob.IndexFrom(s, sub, 0).Some? }

  predicate InWindow(s: Session, since: int) { since > 0 ==> s.updatedAt >= since }

  predicate Selected(st: Stores, q: Query, s: Session) {
    && (q.tools != [] ==> s.tool in q.tools)
    && (q.archived.Some? ==> s.archived == q.archived.value)
    && InWindow(s, q.since)
    && (st.lower(q.cwd) != "" ==> Contains(st.lower(s.cwd), st.lower(q.cwd)))
    && (st.lower(q.source) != "" ==> Contains(st.lower(s.source), st.lower(q.source)))
    && (st.lower(q.text) != "" ==>
          Contains(st.lower(s.cwd), st.lower(q.text)) || Contains(st.lower(s.title), st.lower(q.text)))
  }

  function Filter(all: seq<Session>, keep: Session -> bool): seq<Session> {
    if all == [] then []
    else
      var n := |all| - 1;
      Filter(all[..n], keep) + if keep(all[n]) then [all[n]] else []
  }

  method FilterSessions(st: Stores, all: seq<Session>, q: Query) returns (out: seq<Session>)
    ensures out == Filter(all, s => Selected(st, q, s))
  {
    out := [];
    for i := 0 to |all|
      invariant out == Filter(all[..i], s => Selected(st, q, s))
    {
      hide Contains;
      var s := all[i];
      assert all[..i + 1][..i] == all[..i];
      if q.tools != [] && s.tool !in q.tools { continue; }
      if q.archived.Some? && s.archived != q.archived.value { continue; }
      if q.since > 0 && s.updatedAt < q.since { continue; }
      if st.lower(q.cwd) != "" && !Contains(st.lower(s.cwd), st.lower(q.cwd)) { continue; }
      if st.lower(q.source) != "" && !Contains(st.lower(s.source), st.lower(q.source)) { continue; }
      if st.lower(q.text) != "" {
        if !Contains(st.lower(s.cwd), st.lower(q.text)) && !Contains(st.lower(s.title), st.lower(q.text)) { continue; }
      }
      out := out + [s];
    }
    assert all[..|all|] == all;
  }

  function Key(s: Session, byCreation: bool): int { if byCreation then s.createdAt else s.updatedAt }

  /** A session goes behind those with the same or a later time. */
  function Insert(s: Session, sorted: seq<Session>, byCreation: bool): seq<Session> {
    if sorted == [] || Key(s, byCreation) > Key(sorted[0], byCreation) then [s] + sorted
    else [sorted[0]] + Insert(s, sorted[1..], byCreation)
  }

  /** The stable sort, newest first. */
  function Sorted(all: seq<Session>, byCreation: bool): seq<Session> {
    if all == [] then []
    else
      var n := |all| - 1;
      Insert(all[n], Sorted(all[..n], byCreation), byCreation)
  }

  /** The sessions that have used tokens, enriched. */
  function Enriched(st: Stores, all: seq<Session>): seq<Session> {
    if all == [] then []
    else
      var n := |all| - 1;
      Enriched(st, all[..n]) + if st.enrich(all[n]).tokens > 0 then [st.enrich(all[n])] else []
  }

  function PageBounds(offset: int, limit: int, total: nat): (r: (nat, nat))
    ensures r.0 <= r.1 <= total
  {
    var from := if offset < 0 then 0 else offset;
    var start := if from < total then from else total;
    (start, if limit > 0 && from + limit < total then from + limit else total)
  }

  function Slice(all: seq<Session>, q: Query): seq<Session> {
    var (start, end) := PageBounds(q.offset, q.limit, |all|);
    all[start..end]
  }

  function FilterSources(sources: seq<Source>, tools: seq<string>): seq<Source> {
    if tools == [] then sources
    else if sources == [] then []
    else
      var n := |sources| - 1;
      FilterSources(sources[..n], tools) + if sources[n].tool in tools then [sources[n]] else []
  }

  // ---------- the answer of a fresh scan ----------

  function Wanted(tools: seq<string>, tool: string): bool { tools == [] || tool in tools }

  /** The stores wanted, one after the other. */
  function Scanned(st: Stores, tools: seq<string>, since: int, n: nat): (seq<Session>, seq<Source>)
    requires n <= |TOOLS|
  {
    if n == 0 then ([], [])
    else
      var (sessions, sources) := Scanned(st, tools, since, n - 1);
      var tool := TOOLS[n - 1];
      if !Wanted(tools, tool) then (sessions, sources)
      else
        var (more, description) := st.load(tool, since);
        (sessions + more, sources + if description != "" then [Source(tool, description)] else [])
  }

  function Ordered(st: Stores, tools: seq<string>, q: Query): seq<Session> {
    Sorted(Filter(Scanned(st, tools, q.since, |TOOLS|).0, s => Selected(st, q, s)), q.byCreation)
  }

  /** The enriched sessions a display stops after: the first `n`, but at least one. */
  function FirstOf(all: seq<Session>, n: int): seq<Session> {
    var m := if n < 1 then 1 else n;
    if m < |all| then all[..m] else all
  }

  function Listed(st: Stores, tools: seq<string>, q: Query, withTokens: bool, stopAfterPage: bool): seq<Session> {
    var all := Ordered(st, tools, q);
    if !withTokens then all
    else if stopAfterPage && q.limit > 0 then FirstOf(Enriched(st, all), q.offset + q.limit)
    else Enriched(st, all)
  }

  /** The page a request gets from a fresh scan. */
  function FreshPage(st: Stores, tools: seq<string>, q: Query, withTokens: bool, stopAfterPage: bool): Page {
    var all := Listed(st, tools, q, withTokens, stopAfterPage);
    Page(Slice(all, q), |all|, FilterSources(Scanned(st, tools, q.since, |TOOLS|).1, q.tools))
  }

  /** A reader may leave out sessions older than `since`, and nothing else. */
  ghost predicate Prefilters(st: Stores) {
    forall tool, since :: ReaderPrefilters(st, tool, since)
  }

  ghost predicate ReaderPrefilters(st: Stores, tool: string, since: int) {
    && Filter(st.load(tool, since).0, s => InWindow(s, since)) == Filter(st.load(tool, 0).0, s => InWindow(s, since))
    && st.load(tool, since).1 == st.load(tool, 0).1
  }

  lemma {:induction false} FilterConcat(a: seq<Session>, b: seq<Session>, keep: Session -> bool)
    ensures Filter(a + b, keep) == Filter(a, keep) + Filter(b, keep)
  {
    if b == [] {
      assert a + b == a;
    } else {
      var n := |b| - 1;
      assert (a + b)[..|a + b| - 1] == a + b[..n];
      FilterConcat(a, b[..n], keep);
    }
  }

  lemma {:induction false} FilterTwice(all: seq<Session>, first: Session -> bool, keep: Session -> bool)
    requires forall s :: keep(s) ==> first(s)
    ensures Filter(Filter(all, first), keep) == Filter(all, keep)
  {
    if all != [] {
      var n := |all| - 1;
      FilterTwice(all[..n], first, keep);
      var front, last := Filter(all[..n], first), if first(all[n]) then [all[n]] else [];
      FilterConcat(front, last, keep);
      assert first(all[n]) ==>
          last[..0] == [] && Filter(last, keep) == Filter([], keep) + if keep(all[n]) then [all[n]] else [];
    }
  }

  /** Seen through a window, a scan of a wider one is the same, and names the same sources. */
  lemma {:induction false} WiderScan(st: Stores, tools: seq<string>, wide: int, since: int, n: nat)
    requires Prefilters(st) && n <= |TOOLS| && (wide == 0 || (since > 0 && wide <= since))
    ensures Filter(Scanned(st, tools, wide, n).0, s => InWindow(s, since))
        == Filter(Scanned(st, tools, since, n).0, s => InWindow(s, since))
    ensures Scanned(st, tools, wide, n).1 == Scanned(st, tools, since, n).1
  {
    if n > 0 {
      WiderScan(st, tools, wide, since, n - 1);
      var tool := TOOLS[n - 1];
      if Wanted(tools, tool) {
        var inside := (s: Session) => InWindow(s, since);
        WiderRead(st, tool, wide, since);
        FilterConcat(Scanned(st, tools, wide, n - 1).0, st.load(tool, wide).0, inside);
        FilterConcat(Scanned(st, tools, since, n - 1).0, st.load(tool, since).0, inside);
      }
    }
  }

  lemma WiderRead(st: Stores, tool: string, wide: int, since: int)
    requires Prefilters(st) && (wide == 0 || (since > 0 && wide <= since))
    ensures Filter(st.load(tool, wide).0, s => InWindow(s, since))
        == Filter(st.load(tool, since).0, s => InWindow(s, since))
    ensures st.load(tool, wide).1 == st.load(tool, since).1
  {
    assert ReaderPrefilters(st, tool, wide) && ReaderPrefilters(st, tool, since);
    var narrow, broad := (s: Session) => InWindow(s, since), (s: Session) => InWindow(s, wide);
    FilterTwice(st.load(tool, wide).0, broad, narrow);
    FilterTwice(st.load(tool, 0).0, broad, narrow);
  }

  /** What a wider scan answers to a query is what a scan of the query's own window does. */
  lemma WiderAnswers(st: Stores, tools: seq<string>, wide: int, q: Query)
    requires Prefilters(st) && (wide == 0 || (q.since > 0 && wide <= q.since))
    ensures Filter(Scanned(st, tools, wide, |TOOLS|).0, s => Selected(st, q, s))
         == Filter(Scanned(st, tools, q.since, |TOOLS|).0, s => Selected(st, q, s))
    ensures Scanned(st, tools, wide, |TOOLS|).1 == Scanned(st, tools, q.since, |TOOLS|).1
  {
    hide Scanned, Contains;
    var inside, keep := (s: Session) => InWindow(s, q.since), (s: Session) => Selected(st, q, s);
    WiderScan(st, tools, wide, q.since, |TOOLS|);
    FilterTwice(Scanned(st, tools, wide, |TOOLS|).0, inside, keep);
    FilterTwice(Scanned(st, tools, q.since, |TOOLS|).0, inside, keep);
  }

  // ---------- the cached loader ----------

  class Loader {
    const ttl: int
    const tools: seq<string>
    var loaded: Option<int>
    var scanSince: int
    var sessions: seq<Session>
    var sources: seq<Source>

    /** The cache holds a scan of these stores. */
    ghost predicate Valid(st: Stores)
      reads this
    {
      loaded.Some? ==> (sessions, sources) == Scanned(st, tools, scanSince, |TOOLS|)
    }

    constructor (ttl: int, tools: seq<string>)
      ensures loaded.None? && this.ttl == ttl && this.tools == tools
    {
      this.ttl, this.tools, loaded, scanSince, sessions, sources := ttl, tools, None, 0, [], [];
    }

    predicate Serves(since: int, now: int)
      reads this
    {
      loaded.Some? && now - loaded.value < ttl && (scanSince == 0 || (since > 0 && scanSince <= since))
    }

    method Scan(st: Stores, since: int, now: int) returns (found: seq<Session>, foundSources: seq<Source>)
      requires Valid(st)
      modifies this
      ensures Valid(st) && found == sessions && foundSources == sources
      ensures if old(Serves(since, now))
              then scanSince == old(scanSince) && loaded == old(loaded) && sessions == old(sessions)
                  && sources == old(sources)
              else scanSince == since && loaded == Some(now)
    {
      var covers := scanSince == 0 || (since > 0 && scanSince <= since);
      if loaded.Some? && now - loaded.value < ttl && covers {
        return sessions, sources;
      }
      found, foundSources := [], [];
      for n := 0 to |TOOLS|
        invariant (found, foundSources) == Scanned(st, tools, since, n)
      {
        var tool := TOOLS[n];
        if Wanted(tools, tool) {
          var (more, description) := st.load(tool, since);
          found := found + more;
          if description != "" {
            foundSources := foundSources + [Source(tool, description)];
          } else {
            assert foundSources + [] == foundSources;
          }
        }
      }
      sessions, sources, loaded, scanSince := found, foundSources, Some(now), since;
    }

    /** Any page, from the cache or not, is the page of a fresh scan. */
    method List(st: Stores, q: Query, withTokens: bool, stopAfterPage: bool, now: int) returns (page: Page)
      requires Valid(st) && Prefilters(st)
      modifies this
      ensures Valid(st) && page == FreshPage(st, tools, q, withTokens, stopAfterPage)
      ensures old(Serves(q.since, now)) ==> sessions == old(sessions) && sources == old(sources)
    {
      hide Selected, Scanned, Sorted, Prefilters;
      var found, foundSources := Scan(st, q.since, now);
      if scanSince != q.since { WiderAnswers(st, tools, scanSince, q); }
      var all := FilterSessions(st, found, q);
      all := Sorted(all, q.byCreation);
      assert all == Ordered(st, tools, q);
      if withTokens {
        all := EnrichSome(st, all, stopAfterPage && q.limit > 0, q.offset + q.limit);
      }
      var (start, end) := PageBounds(q.offset, q.limit, |all|);
      page := Page(all[start..end], |all|, FilterSources(foundSources, q.tools));
    }
  }

  method EnrichSome(st: Stores, all: seq<Session>, stops: bool, n: int) returns (out: seq<Session>)
    ensures out == if stops then FirstOf(Enriched(st, all), n) else Enriched(st, all)
  {
    out := [];
    for i := 0 to |all|
      invariant out == Enriched(st, all[..i])
      invariant stops ==> out == [] || |out| < n
    {
      assert all[..i + 1][..i] == all[..i];
      var s := st.enrich(all[i]);
      if s.tokens > 0 {
        ghost var before := out;
        out := out + [s];
        if stops && |out| >= n {
          EnrichedGrows(st, all, i + 1);
          return;
        }
      } else {
        assert out + [] == out;
      }
    }
    assert all[..|all|] == all;
  }

  lemma {:induction false} EnrichedGrows(st: Stores, all: seq<Session>, i: nat)
    requires i <= |all|
    ensures var a, b := Enriched(st, all[..i]), Enriched(st, all); |a| <= |b| && b[..|a|] == a
    decreases |all| - i
  {
    if i == |all| {
      assert all[..i] == all;
    } else {
      assert all[..i + 1][..i] == all[..i];
      EnrichedGrows(st, all, i + 1);
    }
  }

  // ---------- stopping early ----------

  /** Stopping once the page is full changes the page for no offset from zero on; a negative one makes it stop too soon,
      unless one session is all that is asked for or all there are. */
  lemma DisplayIsList(st: Stores, tools: seq<string>, q: Query)
    ensures FreshPage(st, tools, q, true, true).sessions == FreshPage(st, tools, q, true, false).sessions
            <==> q.offset >= 0 || q.limit <= 1 || |Enriched(st, Ordered(st, tools, q))| <= 1
                 || |Enriched(st, Ordered(st, tools, q))| <= q.offset + q.limit
  {
    hide Enriched, Ordered, Scanned;
    var full := Enriched(st, Ordered(st, tools, q));
    SliceOfFirst(full, q);
  }

  lemma SliceOfFirst(full: seq<Session>, q: Query)
    ensures (if q.limit > 0 then Slice(FirstOf(full, q.offset + q.limit), q) else Slice(full, q)) == Slice(full, q)
            <==> q.offset >= 0 || q.limit <= 1 || |full| <= 1 || |full| <= q.offset + q.limit
  {
    var first := FirstOf(full, q.offset + q.limit);
    if q.limit > 0 && q.offset < 0 && q.limit > 1 && |full| > 1 && |full| > q.offset + q.limit {
      assert |Slice(first, q)| < |Slice(full, q)|;
    }
  }

  const TWO_SESSIONS: seq<Session> :=
    [Session("codex", "a", "", "", false, 2, 2, 1), Session("codex", "b", "", "", false, 1, 1, 1)]

  /** A store with two sessions. */
  function TwoStored(): Stores {
    Stores((tool: string, since: int) => if tool == "codex" then (TWO_SESSIONS, "store") else ([], ""),
           (text: string) => text, (s: Session) => s)
  }

  const BEFORE_FIRST := Query([], None, "", "", "", 0, false, 2, -1)

  /** Asked for two sessions from offset -1, the early-stopping listing shows fewer than the full one. */
  lemma NegativeOffsetStopsEarly()
    ensures FreshPage(TwoStored(), [], BEFORE_FIRST, true, true).sessions
         != FreshPage(TwoStored(), [], BEFORE_FIRST, true, false).sessions
  {
    hide FreshPage;
    var st, q := TwoStored(), BEFORE_FIRST;
    TwoScanned();
    TwoEnriched();
    DisplayIsList(st, [], q);
  }

  lemma TwoScanned()
    ensures Scanned(TwoStored(), [], 0, |TOOLS|).0 == TWO_SESSIONS
  {
    var st := TwoStored();
    assert Scanned(st, [], 0, 1).0 == TWO_SESSIONS;
    assert Scanned(st, [], 0, 2).0 == TWO_SESSIONS;
    assert Scanned(st, [], 0, 3).0 == TWO_SESSIONS;
  }

  lemma TwoEnriched()
    requires Scanned(TwoStored(), [], 0, |TOOLS|).0 == TWO_SESSIONS
    ensures |Enriched(TwoStored(), Ordered(TwoStored(), [], BEFORE_FIRST))| == 2
  {
    hide Scanned, Contains;
    var st, a, b := TwoStored(), TWO_SESSIONS[0], TWO_SESSIONS[1];
    assert TWO_SESSIONS[..1] == [a] && [a][..0] == [];
    var keep := (s: Session) => Selected(st, BEFORE_FIRST, s);
    assert Filter([a], keep) == [a] && Filter(TWO_SESSIONS, keep) == TWO_SESSIONS;
    assert Sorted([a], false) == [a];
    assert Insert(b, [a], false) == [a] + Insert(b, [], false);
    assert Sorted(TWO_SESSIONS, false) == TWO_SESSIONS;
    assert Enriched(st, [a]) == [a];
  }

  /** Newest first, by the time of creation or of the last update. */
  ghost predicate Descending(all: seq<Session>, byCreation: bool) {
    forall i, j :: 0 <= i < j < |all| ==>
      if byCreation then all[i].createdAt >= all[j].createdAt else all[i].updatedAt >= all[j].updatedAt
  }

  lemma DescendingCons(s: Session, all: seq<Session>, byCreation: bool)
    requires Descending(all, byCreation) && forall x <- all :: Key(s, byCreation) >= Key(x, byCreation)
    ensures Descending([s] + all, byCreation)
  {
    forall k | 0 <= k < |all| ensures Key(s, byCreation) >= Key(all[k], byCreation) { assert all[k] in all; }
  }

  lemma DescendingParts(all: seq<Session>, byCreation: bool)
    requires Descending(all, byCreation) && all != []
    ensures Descending(all[1..], byCreation) && forall x <- all[1..] :: Key(all[0], byCreation) >= Key(x, byCreation)
  {
  }

  /** The order pages are cut from: the selected sessions, newest first. */
  lemma {:induction false} SortedIsSorted(all: seq<Session>, byCreation: bool)
    ensures multiset(Sorted(all, byCreation)) == multiset(all) && Descending(Sorted(all, byCreation), byCreation)
  {
    hide Insert, Key;
    if all != [] {
      var n := |all| - 1;
      SortedIsSorted(all[..n], byCreation);
      InsertSorts(all[n], Sorted(all[..n], byCreation), byCreation);
      assert all == all[..n] + [all[n]];
    }
  }

  lemma {:induction false} InsertSorts(s: Session, sorted: seq<Session>, byCreation: bool)
    requires Descending(sorted, byCreation)
    ensures multiset(Insert(s, sorted, byCreation)) == multiset(sorted) + multiset{s}
    ensures Descending(Insert(s, sorted, byCreation), byCreation)
  {
    hide Descending, Key;
    if sorted == [] {
      assert [s] + [] == [s];
      OneDescends(s, byCreation);
    } else {
      DescendingParts(sorted, byCreation);
      assert sorted == [sorted[0]] + sorted[1..];
      if Key(s, byCreation) > Key(sorted[0], byCreation) {
        forall x | x in sorted ensures Key(s, byCreation) >= Key(x, byCreation) {
          if x != sorted[0] { assert x in sorted[1..]; }
        }
        DescendingCons(s, sorted, byCreation);
      } else {
        InsertSorts(s, sorted[1..], byCreation);
        var rest := Insert(s, sorted[1..], byCreation);
        forall x | x in rest ensures Key(sorted[0], byCreation) >= Key(x, byCreation) {
          assert x in multiset(rest);
          if x != s { assert x in multiset(sorted[1..]); }
        }
        DescendingCons(sorted[0], rest, byCreation);
      }
    }
  }

  lemma OneDescends(s: Session, byCreation: bool)
    ensures Descending([s], byCreation)
  {
  }

  function AtTime(time: int, byCreation: bool): Session -> bool {
    (s: Session) => if byCreation then s.createdAt == time else s.updatedAt == time
  }

  /** Sessions with the same time keep their order. */
  lemma {:induction false} SortIsStable(all: seq<Session>, byCreation: bool, time: int)
    ensures Filter(Sorted(all, byCreation), AtTime(time, byCreation)) == Filter(all, AtTime(time, byCreation))
  {
    if all != [] {
      var n := |all| - 1;
      SortIsStable(all[..n], byCreation, time);
      SortedIsSorted(all[..n], byCreation);
      InsertIsStable(all[n], Sorted(all[..n], byCreation), byCreation, time);
    }
  }

  lemma {:induction false} InsertIsStable(s: Session, sorted: seq<Session>, byCreation: bool, time: int)
    requires Descending(sorted, byCreation)
    ensures var at := AtTime(time, byCreation);
            Filter(Insert(s, sorted, byCreation), at) == Filter(sorted, at) + if at(s) then [s] else []
  {
    hide Descending, Filter, AtTime, Key;
    var at := AtTime(time, byCreation);
    FilterOne(s, at);
    if sorted == [] {
      assert [s] + sorted == [s];
      NoneLeft([], at);
    } else if Key(s, byCreation) > Key(sorted[0], byCreation) {
      FilterConcat([s], sorted, at);
      if at(s) { EarlierTimes(s, sorted, byCreation, time); }
    } else {
      DescendingParts(sorted, byCreation);
      InsertIsStable(s, sorted[1..], byCreation, time);
      var own := if at(s) then [s] else [];
      FilterConcat([sorted[0]], Insert(s, sorted[1..], byCreation), at);
      FilterConcat([sorted[0]], sorted[1..], at);
      assert sorted == [sorted[0]] + sorted[1..];
      assert Filter([sorted[0]], at) + (Filter(sorted[1..], at) + own)
          == Filter([sorted[0]], at) + Filter(sorted[1..], at) + own;
    }
  }

  /** What is older than `s` is not of its time. */
  lemma EarlierTimes(s: Session, sorted: seq<Session>, byCreation: bool, time: int)
    requires Descending(sorted, byCreation) && sorted != [] && Key(s, byCreation) > Key(sorted[0], byCreation)
    requires AtTime(time, byCreation)(s)
    ensures Filter(sorted, AtTime(time, byCreation)) == []
  {
    hide Filter;
    NoneLeft(sorted, AtTime(time, byCreation));
  }

  lemma FilterOne(s: Session, keep: Session -> bool)
    ensures Filter([s], keep) == if keep(s) then [s] else []
  {
    assert [s][..0] == [];
  }

  lemma {:induction false} NoneLeft(all: seq<Session>, keep: Session -> bool)
    requires forall i :: 0 <= i < |all| ==> !keep(all[i])
    ensures Filter(all, keep) == []
  {
    if all != [] { NoneLeft(all[..|all| - 1], keep); }
  }

  // ---------- what a page shows ----------

  lemma {:induction false} FilteredSources(sources: seq<Source>, tools: seq<string>)
    ensures forall src :: src in FilterSources(sources, tools) <==>
              src in sources && (tools == [] || src.tool in tools)
  {
    if sources != [] && tools != [] {
      var n := |sources| - 1;
      FilteredSources(sources[..n], tools);
      assert sources == sources[..n] + [sources[n]];
    }
  }

  /** The store of this name is one of those looked at, and is wanted. */
  predicate IsRead(tools: seq<string>, tool: string, n: nat) {
    n <= |TOOLS| && tool in TOOLS[..n] && (tools == [] || tool in tools)
  }

  /** The session is one a store read returned. */
  ghost predicate IsFound(st: Stores, tools: seq<string>, since: int, n: nat, s: Session) {
    exists tool :: IsRead(tools, tool, n) && s in st.load(tool, since).0
  }

  lemma ReadMore(tools: seq<string>, n: nat)
    requires n < |TOOLS|
    ensures forall t :: IsRead(tools, t, n + 1) <==> IsRead(tools, t, n) || (t == TOOLS[n] && Wanted(tools, t))
  {
    assert TOOLS[..n + 1] == TOOLS[..n] + [TOOLS[n]];
    forall t: string ensures t in TOOLS[..n + 1] <==> t in TOOLS[..n] || t == TOOLS[n] {}
  }

  lemma FoundMore(st: Stores, tools: seq<string>, since: int, n: nat, s: Session)
    requires n < |TOOLS|
    ensures IsFound(st, tools, since, n + 1, s) <==>
            IsFound(st, tools, since, n, s) || (Wanted(tools, TOOLS[n]) && s in st.load(TOOLS[n], since).0)
  {
    var tool := TOOLS[n];
    ReadMore(tools, n);
    hide IsRead;
    if IsFound(st, tools, since, n, s) {
      var t :| IsRead(tools, t, n) && s in st.load(t, since).0;
      assert IsRead(tools, t, n + 1);
    }
    if Wanted(tools, tool) { assert IsRead(tools, tool, n + 1); }
  }

  lemma {:induction false} ScanReads(st: Stores, tools: seq<string>, since: int, n: nat)
    requires n <= |TOOLS|
    ensures var (sessions, sources) := Scanned(st, tools, since, n);
            && (forall s :: s in sessions <==> IsFound(st, tools, since, n, s))
            && (forall src :: src in sources <==>
                  IsRead(tools, src.tool, n) && src.description != "" && src.description == st.load(src.tool, since).1)
  {
    if n > 0 {
      ScanReads(st, tools, since, n - 1);
      var tool := TOOLS[n - 1];
      ReadMore(tools, n - 1);
      hide IsFound;
      forall s ensures IsFound(st, tools, since, n, s) <==>
                       IsFound(st, tools, since, n - 1, s) || (Wanted(tools, tool) && s in st.load(tool, since).0)
      {
        FoundMore(st, tools, since, n - 1, s);
      }
    }
  }

  lemma {:induction false} FilterKeeps(all: seq<Session>, keep: Session -> bool)
    ensures forall s :: s in Filter(all, keep) <==> s in all && keep(s)
  {
    if all != [] {
      var n := |all| - 1;
      FilterKeeps(all[..n], keep);
      assert all == all[..n] + [all[n]];
    }
  }

  /** What a query asks of a session, apart from the texts it looks for. */
  predicate Asked(q: Query, s: Session) {
    && (q.tools == [] || s.tool in q.tools) && (q.archived.Some? ==> s.archived == q.archived.value)
    && (q.since > 0 ==> s.updatedAt >= q.since)
  }

  /** A page is cut from the listed sessions by offset and limit, the total counts them all, and the sources are those
      of the stores read that have a description and are asked for. */
  lemma PageHolds(st: Stores, tools: seq<string>, q: Query, withTokens: bool, stopAfterPage: bool)
    ensures var page := FreshPage(st, tools, q, withTokens, stopAfterPage);
            var all := Listed(st, tools, q, withTokens, stopAfterPage);
            var from := if q.offset < 0 then 0 else q.offset;
            var left := |all| - from;
            && page.total == |all|
            && |page.sessions| == (if left <= 0 then 0 else if 0 < q.limit < left then q.limit else left)
            && (forall i :: 0 <= i < |page.sessions| ==> page.sessions[i] == all[from + i])
            && forall src :: src in page.sources <==>
                 && IsRead(tools, src.tool, |TOOLS|) && (q.tools == [] || src.tool in q.tools)
                 && src.description != "" && src.description == st.load(src.tool, q.since).1
  {
    hide Listed, Scanned, FilterSources;
    ScanReads(st, tools, q.since, |TOOLS|);
    FilteredSources(Scanned(st, tools, q.since, |TOOLS|).1, q.tools);
  }

  /** Without enrichment the sessions listed are those of the stores read that the query asks for. */
  lemma ListedSessions(st: Stores, tools: seq<string>, q: Query)
    ensures forall s :: s in Listed(st, tools, q, false, false) ==>
              Asked(q, s) && IsFound(st, tools, q.since, |TOOLS|, s)
    ensures st.lower(q.cwd) == "" && st.lower(q.source) == "" && st.lower(q.text) == "" ==>
              forall s :: IsFound(st, tools, q.since, |TOOLS|, s) && Asked(q, s) ==>
                s in Listed(st, tools, q, false, false)
  {
    hide Scanned, Sorted, Filter, Contains, IsFound;
    var found := Scanned(st, tools, q.since, |TOOLS|).0;
    var keep := (s: Session) => Selected(st, q, s);
    ScanReads(st, tools, q.since, |TOOLS|);
    FilterKeeps(found, keep);
    SortedIsSorted(Filter(found, keep), q.byCreation);
    var all := Sorted(Filter(found, keep), q.byCreation);
    assert all == Listed(st, tools, q, false, false);
    forall s ensures s in all <==> s in Filter(found, keep) {
      assert s in multiset(all) <==> s in multiset(Filter(found, keep));
    }
  }
}
