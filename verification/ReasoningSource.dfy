/**
 Looking reasoning up in the cache while a history is converted: reads move and drop entries as they go, and still every
 lookup of one request sees the cache as it was at its start. (convert/request.go lookupCall and lookupContent)
 */
module ReasoningSource {
  import opened Common
  import opened InputSpec
  import opened LruSpec
  import L = Lru

  /** What can be looked up at the moment `now` in two lists of cells. */
  function SourceOf(hash: string -> int, calls: seq<Cell<string>>, texts: seq<Cell<int>>, now: int): Source {
    Source((id: string) => if id == "" then "" else Peek(calls, id, now),
           (content: string) => if content == "" then "" else Peek(texts, hash(content), now))
  }

  ghost function Footprint(src: Option<L.Cache>): set<object>
    reads if src.Some? then {src.value, src.value.byCall, src.value.byHash} else {}
  {
    if src.Some? then {src.value} + src.value.Repr() else {}
  }

  /** A cache as a source; none when there is no cache. */
  ghost function Shown(src: Option<L.Cache>, now: int): Source
    reads if src.Some? then {src.value, src.value.byCall, src.value.byHash} else {}
    reads if src.Some? then src.value.byCall.ll else []
    reads if src.Some? then src.value.byHash.ll else []
  {
    if src.None? then NoSource
    else SourceOf(src.value.hash, src.value.byCall.View(), src.value.byHash.View(), now)
  }

  /** Whatever is looked up now is what `source` has. */
  ghost predicate Shows(src: Option<L.Cache>, now: int, source: Source)
    reads if src.Some? then {src.value, src.value.byCall, src.value.byHash} else {}
    reads if src.Some? then src.value.byCall.ll else []
    reads if src.Some? then src.value.byHash.ll else []
  {
    if src.None? then source.NoSource?
    else
      && src.value.Valid() && source.Source?
      && ShowsCalls(src.value.byCall.View(), now, source.byCallID)
      && ShowsTexts(src.value.byHash.View(), src.value.hash, now, source.byContent)
  }

  ghost predicate ShowsCalls(l: seq<Cell<string>>, now: int, byCallID: string -> string) {
    forall id :: byCallID(id) == if id == "" then "" else Peek(l, id, now)
  }

  ghost predicate ShowsTexts(l: seq<Cell<int>>, hash: string -> int, now: int, byContent: string -> string) {
    forall content :: byContent(content) == if content == "" then "" else Peek(l, hash(content), now)
  }

  lemma CallsStillShown(l: seq<Cell<string>>, cap: nat, key: string, now: int, byCallID: string -> string)
    requires WellFormed(l, cap) && cap >= 1 && ShowsCalls(l, now, byCallID)
    ensures ShowsCalls(Get(l, key, now), now, byCallID)
  {
    forall id ensures Peek(Get(l, key, now), id, now) == Peek(l, id, now) { GetKeepsPeeks(l, cap, key, id, now); }
  }

  lemma TextsStillShown(l: seq<Cell<int>>, cap: nat, key: int, hash: string -> int, now: int,
                        byContent: string -> string)
    requires WellFormed(l, cap) && cap >= 1 && ShowsTexts(l, hash, now, byContent)
    ensures ShowsTexts(Get(l, key, now), hash, now, byContent)
  {
    forall k ensures Peek(Get(l, key, now), k, now) == Peek(l, k, now) { GetKeepsPeeks(l, cap, key, k, now); }
  }

  method CallReasoning(src: Option<L.Cache>, callID: string, now: int, ghost source: Source) returns (found: string)
    requires Shows(src, now, source)
    modifies if src.Some? then {src.value.byCall} else {}
    ensures found == LookupCall(source, callID)
    ensures Shows(src, now, source) && Footprint(src) <= old(Footprint(src))
  {
    hide Peek, Get, Set, L.Cells, L.InStep, ShowsTexts;
    if src.None? {
      return "";
    }
    src.value.byCall.ViewWellFormed();
    CallsStillShown(src.value.byCall.View(), src.value.byCall.cap, callID, now, source.byCallID);
    found := src.value.ByCallID(callID, now);
  }

  method ContentReasoning(src: Option<L.Cache>, content: string, now: int, ghost source: Source)
    returns (found: string)
    requires Shows(src, now, source)
    modifies if src.Some? then {src.value.byHash} else {}
    ensures found == LookupContent(source, content)
    ensures Shows(src, now, source) && Footprint(src) <= old(Footprint(src))
  {
    hide Peek, Get, Set, L.Cells, L.InStep, ShowsCalls;
    if src.None? {
      return "";
    }
    src.value.byHash.ViewWellFormed();
    TextsStillShown(src.value.byHash.View(), src.value.byHash.cap, src.value.hash(content), src.value.hash, now,
                    source.byContent);
    found := src.value.ByContent(content, now);
  }

  /** At its start every request sees the cache as it is. */
  lemma ShownShows(src: Option<L.Cache>, now: int)
    requires src.Some? ==> src.value.Valid()
    ensures Shows(src, now, Shown(src, now))
  {
    hide Peek;
  }
}
