/**
 Verbatim forwarding of an SSE stream: what reaches the client, how the end of the stream is classed, and the usage and
 completion flags read off the passing lines. (server/sseforward.go)
 */
module SseForward {
  import opened Common
  import opened SseReader

  // ---------- what the lines say ----------

  datatype Usage = Usage(input: int, output: int, total: int, cached: int, creation: int)

  datatype AnthropicUsage = AnthropicUsage(input: int, output: int, creation: int, read_: int)

  /** A decoded data line, by the protocol of the stream. `tokens` says that it carries output for the first-token
      time. */
  datatype Event =
    | NoEvent
    | ChatEvent(usage: Option<Usage>, tokens: bool, finished: bool)
    | ResponsesEvent(kind: string, usage: Option<Usage>)
    | AnthropicEvent(kind: string, atStart: Option<AnthropicUsage>, delta: Option<AnthropicUsage>, tokens: bool)

  /** The signal that a stream has come to its protocol's end. */
  predicate Completes(e: Event) {
    match e
    case NoEvent => false
    case ChatEvent(usage, _, finished) => usage.Some? || finished
    case ResponsesEvent(kind, _) => kind == "response.completed"
    case AnthropicEvent(kind, _, _, _) => kind == "message_stop"
  }

  predicate HasTokens(e: Event) {
    match e
    case NoEvent => false
    case ChatEvent(_, tokens, _) => tokens
    case ResponsesEvent(kind, _) => HasSuffix(kind, ".delta")
    case AnthropicEvent(kind, _, _, tokens) => kind == "content_block_delta" && tokens
  }

  function FromAnthropic(u: AnthropicUsage): Usage {
    var input := u.input + u.creation + u.read_;
    Usage(input, u.output, input + u.output, u.read_, u.creation)
  }

  function Newer(old_: int, new_: int): int { if new_ > 0 then new_ else old_ }

  /** mergeAnthropicUsage: positive counts replace what was known. */
  function Merge(known: Option<Usage>, src: Option<AnthropicUsage>): Option<Usage> {
    if src.None? then known
    else
      var next := FromAnthropic(src.value);
      if known.None? then Some(next)
      else
        var k := known.value;
        var input, output := Newer(k.input, next.input), Newer(k.output, next.output);
        Some(Usage(input, output, input + output, Newer(k.cached, next.cached), Newer(k.creation, next.creation)))
  }

  datatype Reading = Reading(usage: Option<Usage>, tokenSeen: bool, completed: bool)

  const NOTHING := Reading(None, false, false)

  function UsageStep(known: Option<Usage>, e: Event): Option<Usage> {
    match e
    case NoEvent => known
    case ChatEvent(usage, _, _) => if usage.Some? then usage else known
    case ResponsesEvent(_, usage) => if usage.Some? then usage else known
    case AnthropicEvent(_, atStart, delta, _) => Merge(Merge(known, atStart), delta)
  }

  /** What is known after some lines. */
  function ReadingOf(decode: Bytes -> Event, lines: seq<Bytes>): Reading {
    if lines == [] then NOTHING
    else
      var n := |lines| - 1;
      var r, e := ReadingOf(decode, lines[..n]), decode(lines[n]);
      Reading(UsageStep(r.usage, e), r.tokenSeen || HasTokens(e), r.completed || Completes(e))
  }

  /** The flags updated line by line. */
  class Meter {
    var usage: Option<Usage>
    var tokenSeen: bool
    var completed: bool

    function State(): Reading
      reads this
    {
      Reading(usage, tokenSeen, completed)
    }

    constructor ()
      ensures State() == NOTHING
    {
      usage, tokenSeen, completed := None, false, false;
    }

    method MergeUsage(src: Option<AnthropicUsage>)
      modifies this`usage
      ensures usage == Merge(old(usage), src)
    {
      if src.None? {
        return;
      }
      var next := FromAnthropic(src.value);
      if usage.None? {
        usage := Some(next);
        return;
      }
      var u := usage.value;
      if next.input > 0 {
        u := u.(input := next.input);
      }
      if next.output > 0 {
        u := u.(output := next.output);
      }
      if next.cached > 0 {
        u := u.(cached := next.cached);
      }
      if next.creation > 0 {
        u := u.(creation := next.creation);
      }
      usage := Some(u.(total := u.input + u.output));
    }

    method Parse(e: Event)
      modifies this
      ensures State() == Reading(UsageStep(old(usage), e), old(tokenSeen) || HasTokens(e), old(completed)
                                 || Completes(e))
    {
      match e
      case NoEvent =>
      case ChatEvent(u, tokens, finished) =>
        if u.Some? {
          usage := u;
          completed := true;
        }
        if !tokenSeen && tokens {
          tokenSeen := true;
        }
        if !completed && finished {
          completed := true;
        }
      case ResponsesEvent(kind, u) =>
        if u.Some? {
          usage := u;
        }
        if !tokenSeen && HasSuffix(kind, ".delta") {
          tokenSeen := true;
        }
        if kind == "response.completed" {
          completed := true;
        }
      case AnthropicEvent(kind, atStart, delta, tokens) =>
        MergeUsage(atStart);
        MergeUsage(delta);
        if !tokenSeen && kind == "content_block_delta" && tokens {
          tokenSeen := true;
        }
        if kind == "message_stop" {
          completed := true;
        }
    }
  }

  // ---------- forwarding ----------

  /** What the surroundings do in one round of the loop: cancel before it, take only `accepts` bytes of the line and
      fail, or cancel by the time a read error is looked at. */
  datatype Turn = Turn(cancelled: bool, accepts: Option<nat>, cancelledLate: bool)

  datatype Outcome = CleanEnd | ClientGone | ClientAborted | ReadFailed(error: ReadError)

  /** The lines written in full, what was written of one more, and how it ended. */
  datatype Forwarding = Forwarding(lines: seq<Bytes>, partial: Bytes, outcome: Outcome)

  function GoneOutcome(completed: bool): Outcome { if completed then ClientGone else ClientAborted }

  function EndOutcome(e: ReadError, t: Turn, completed: bool): Outcome {
    if e == Eof then CleanEnd
    else if e == Canceled || t.cancelledLate then GoneOutcome(completed)
    else ReadFailed(e)
  }

  /** Forwarding the stream `s`, which ends with `last`, from round `k` on. */
  function Forward(decode: Bytes -> Event, turns: nat -> Turn, s: Bytes, last: ReadError, k: nat,
                   completed: bool): Forwarding
    decreases |s|
  {
    var t, l := turns(k), LineOf(s);
    if t.cancelled then Forwarding([], [], GoneOutcome(completed))
    else if |l| > MAX_LINE then Forwarding([], [], EndOutcome(TooLarge, t, completed))
    else if l == [] then Forwarding([], [], EndOutcome(last, t, completed))
    else if t.accepts.Some? then
      Forwarding([], if t.accepts.value <= |l| then l[..t.accepts.value] else l, GoneOutcome(completed))
    else
      var completed1 := completed || Completes(decode(l));
      if NEWLINE !in l then Forwarding([l], [], EndOutcome(last, t, completed1))
      else Before([l], Forward(decode, turns, s[|l|..], last, k + 1, completed1))
  }

  function Before(lines: seq<Bytes>, f: Forwarding): Forwarding { f.(lines := lines + f.lines) }

  class Sink {
    var written: Bytes

    method Write(line: Bytes, accepts: Option<nat>) returns (ok: bool)
      modifies this
      ensures ok <==> accepts.None?
      ensures written == old(written)
                         + if accepts.None? || accepts.value > |line| then line else line[..accepts.value]
    {
      written := written + if accepts.None? || accepts.value > |line| then line else line[..accepts.value];
      return accepts.None?;
    }
  }

  /** forwardSSE: whatever the reads, the client has been sent what `Forward` says of the whole stream, and the observer
      has seen the lines written in full. */
  method ForwardSSE(sink: Sink, source: Connection, decode: Bytes -> Event, turns: nat -> Turn)
    returns (outcome: Outcome, meter: Meter, observed: seq<Bytes>)
    requires Lively(source.chunks)
    modifies sink, source
    ensures var f := Forward(decode, turns, old(Content(source.chunks)), old(Ending(source.chunks)), 0, false);
            && sink.written == old(sink.written) + Joined(f.lines) + f.partial
            && outcome == f.outcome && observed == f.lines && meter.State() == ReadingOf(decode, f.lines)
  {
    hide Content, Ending, Lively, LineOf, Joined, UsageStep, HasTokens, Completes, Forward, ReadingOf, EndOutcome,
         GoneOutcome, Before;
    var reader := new BufReader(source, BUFFER);
    meter := new Meter();
    observed := [];
    ghost var whole := Forward(decode, turns, reader.Ahead(), reader.Last(), 0, false);
    Untouched(decode, whole, sink.written);
    var k := 0;
    while true
      invariant reader.Valid() && fresh(reader) && fresh(meter) && reader.source == source
      invariant sink.written == old(sink.written) + Joined(observed)
      invariant meter.State() == ReadingOf(decode, observed)
      invariant whole == Before(observed, Forward(decode, turns, reader.Ahead(), reader.Last(), k, meter.completed))
      decreases |reader.Ahead()|
    {
      ghost var f := Forward(decode, turns, reader.Ahead(), reader.Last(), k, meter.completed);
      Round(decode, turns, reader.Ahead(), reader.Last(), k, meter.completed);
      BeforeParts(observed, f, old(sink.written));
      var t := turns(k);
      if t.cancelled {
        return GoneOutcome(meter.completed), meter, observed;
      }
      var line, error := ReadSSELine(reader, MAX_LINE);
      if |line| > 0 {
        var ok := sink.Write(line, t.accepts);
        if !ok {
          return GoneOutcome(meter.completed), meter, observed;
        }
        meter.Parse(decode(line));
        LineRead(decode, observed, line);
        LineWritten(old(sink.written), observed, line);
        observed := observed + [line];
      }
      if error != NoError {
        return EndOutcome(error, t, meter.completed), meter, observed;
      }
      k := k + 1;
    }
    assert false;
  }

  lemma Untouched(decode: Bytes -> Event, f: Forwarding, written: Bytes)
    ensures written + Joined([]) == written && ReadingOf(decode, []) == NOTHING && Before([], f) == f
  {
  }

  lemma BeforeParts(lines: seq<Bytes>, f: Forwarding, written: Bytes)
    ensures var w := Before(lines, f);
            && w.outcome == f.outcome && w.partial == f.partial && w.lines == lines + f.lines
            && (f.lines == [] ==> w.lines == lines)
            && written + Joined(lines) + [] == written + Joined(lines)
  {
  }

  lemma LineRead(decode: Bytes -> Event, lines: seq<Bytes>, line: Bytes)
    ensures var r, e := ReadingOf(decode, lines), decode(line);
            ReadingOf(decode, lines + [line])
            == Reading(UsageStep(r.usage, e), r.tokenSeen || HasTokens(e), r.completed || Completes(e))
  {
    hide UsageStep, HasTokens, Completes;
    assert (lines + [line])[..|lines|] == lines;
  }

  lemma {:induction false} JoinedMore(lines: seq<Bytes>, line: Bytes)
    ensures Joined(lines + [line]) == Joined(lines) + line
  {
    if lines == [] {
      assert [line][1..] == [] && [] + [line] == [line];
    } else {
      assert (lines + [line])[1..] == lines[1..] + [line];
      JoinedMore(lines[1..], line);
    }
  }

  lemma LineWritten(written: Bytes, lines: seq<Bytes>, line: Bytes)
    ensures written + Joined(lines) + line == written + Joined(lines + [line])
    ensures forall f: Forwarding :: Before(lines, Before([line], f)) == Before(lines + [line], f)
  {
    hide Joined;
    JoinedMore(lines, line);
    forall f: Forwarding ensures Before(lines, Before([line], f)) == Before(lines + [line], f) {
      assert lines + ([line] + f.lines) == lines + [line] + f.lines;
    }
  }

  /** One round. */
  lemma Round(decode: Bytes -> Event, turns: nat -> Turn, s: Bytes, last: ReadError, k: nat, completed: bool)
    ensures var f := Forward(decode, turns, s, last, k, completed);
            var t, l := turns(k), LineOf(s);
            var completed1 := completed || Completes(decode(l));
            if t.cancelled then f == Forwarding([], [], GoneOutcome(completed))
            else if |l| > MAX_LINE then f == Forwarding([], [], EndOutcome(TooLarge, t, completed))
            else if l == [] then f == Forwarding([], [], EndOutcome(last, t, completed))
            else if t.accepts.Some? then
              f == Forwarding([], if t.accepts.value > |l| then l else l[..t.accepts.value], GoneOutcome(completed))
            else if NEWLINE !in l then f == Forwarding([l], [], EndOutcome(last, t, completed1))
            else f == Before([l], Forward(decode, turns, s[|l|..], last, k + 1, completed1))
  {
    hide Before, EndOutcome, GoneOutcome, Completes;
  }

  // ---------- what the client gets ----------

  /** All lines of a stream, the unfinished last one included. */
  function AllLines(s: Bytes): seq<Bytes> {
    Lines(s) + if Rest(s) == [] then [] else [Rest(s)]
  }

  /** A Chat chunk with a usage or a finish reason, or the event that ends a Responses or an Anthropic stream. */
  predicate EndsStream(e: Event) {
    || (e.ChatEvent? && (e.usage != None || e.finished))
    || (e.ResponsesEvent? && e.kind == "response.completed")
    || (e.AnthropicEvent? && e.kind == "message_stop")
  }

  predicate AnyCompletes(decode: Bytes -> Event, lines: seq<Bytes>) {
    exists i :: 0 <= i < |lines| && EndsStream(decode(lines[i]))
  }

  lemma CompletesEnds(e: Event)
    ensures Completes(e) <==> EndsStream(e)
  {
  }

  predicate IsPrefix<T(==)>(a: seq<T>, b: seq<T>) { |a| <= |b| && b[..|a|] == a }

  lemma LinesUnfold(s: Bytes)
    ensures if s == [] then AllLines(s) == []
            else
              var l := LineOf(s);
              && l != []
              && if NEWLINE in s then NEWLINE in l && AllLines(s) == [l] + AllLines(s[|l|..])
                 else l == s && AllLines(s) == [l]
  {
    hide LineOf, Lines, Rest;
    if NEWLINE in s {
      var l := LineOf(s);
      assert l[|l| - 1] == NEWLINE;
      OneLineLess(s, []);
      assert [] + Lines(s) == Lines(s) && [] + [l] + Lines(s[|l|..]) == [l] + Lines(s[|l|..]);
      assert [l] + Lines(s[|l|..]) + (if Rest(s) == [] then [] else [Rest(s)]) == [l] + AllLines(s[|l|..]);
    } else {
      NoLines(s);
    }
  }

  lemma NoLines(s: Bytes)
    requires NEWLINE !in s
    ensures Lines(s) == [] && Rest(s) == s && AllLines(s) == if s == [] then [] else [s]
  {
    hide LineOf;
  }

  /** Only whole lines of the stream are written in full, in order, none longer than a mebibyte, and what was written of
      one more is a part of the line after them. */
  lemma {:induction false} ForwardsLines(decode: Bytes -> Event, turns: nat -> Turn, s: Bytes, last: ReadError, k: nat,
                                         completed: bool)
    ensures var f, all := Forward(decode, turns, s, last, k, completed), AllLines(s);
            && |f.lines| <= |all| && IsPrefix(f.lines, all)
            && (forall i :: 0 <= i < |f.lines| ==> |f.lines[i]| <= MAX_LINE)
            && (f.partial != [] ==> |f.lines| < |all| && IsPrefix(f.partial, all[|f.lines|]) && |f.partial| <= MAX_LINE)
    decreases |s|
  {
    hide LineOf, Forward, AllLines, EndOutcome, GoneOutcome, Completes;
    Round(decode, turns, s, last, k, completed);
    LinesUnfold(s);
    var l := LineOf(s);
    if l != [] && NEWLINE in l {
      var completed1 := completed || Completes(decode(l));
      ForwardsLines(decode, turns, s[|l|..], last, k + 1, completed1);
      PrefixMore(l, Forward(decode, turns, s[|l|..], last, k + 1, completed1), AllLines(s[|l|..]));
    }
  }

  lemma PrefixMore(l: Bytes, f: Forwarding, all: seq<Bytes>)
    requires |f.lines| <= |all| && IsPrefix(f.lines, all)
    ensures var g := Before([l], f);
            && IsPrefix(g.lines, [l] + all) && g.lines == [l] + f.lines
            && (forall i :: 0 <= i < |g.lines| ==> g.lines[i] == if i == 0 then l else f.lines[i - 1])
            && (|f.lines| < |all| ==> ([l] + all)[|g.lines|] == all[|f.lines|])
  {
    assert ([l] + all)[..|f.lines| + 1] == [l] + all[..|f.lines|];
  }

  lemma {:induction false} JoinedPrefix(a: seq<Bytes>, b: seq<Bytes>, partial: Bytes)
    requires |a| <= |b| && IsPrefix(a, b) && (partial != [] ==> |a| < |b| && IsPrefix(partial, b[|a|]))
    ensures IsPrefix(Joined(a) + partial, Joined(b))
  {
    if a == [] {
      assert [] + partial == partial;
      if partial != [] { assert Joined(b) == b[0] + Joined(b[1..]); }
    } else {
      assert a[0] == b[..|a|][0] == b[0];
      assert b[1..][..|a[1..]|] == b[..|a|][1..] == a[1..];
      JoinedPrefix(a[1..], b[1..], partial);
      assert a[0] + Joined(a[1..]) + partial == a[0] + (Joined(a[1..]) + partial);
      PrefixAfter(a[0], Joined(a[1..]) + partial, Joined(b[1..]));
    }
  }

  lemma PrefixAfter(x: Bytes, a: Bytes, b: Bytes)
    requires IsPrefix(a, b)
    ensures IsPrefix(x + a, x + b)
  {
  }

  lemma AllLinesJoin(s: Bytes)
    ensures Joined(AllLines(s)) == s
  {
    hide Lines, Rest, Joined;
    LinesJoin(s);
    JoinedMore(Lines(s), Rest(s));
    assert Rest(s) == [] ==> Lines(s) + [] == Lines(s) && Joined(Lines(s)) + [] == Joined(Lines(s));
  }

  /** Verbatim: what the client was sent is a prefix of the upstream's bytes, and all of them on a clean end. */
  lemma WrittenIsPrefix(decode: Bytes -> Event, turns: nat -> Turn, s: Bytes, last: ReadError)
    ensures var f := Forward(decode, turns, s, last, 0, false);
            && IsPrefix(Joined(f.lines) + f.partial, s)
            && (f.outcome == CleanEnd ==> last == Eof && f.partial == [] && Joined(f.lines) == s)
  {
    hide Forward, AllLines, Joined;
    ForwardsLines(decode, turns, s, last, 0, false);
    AllLinesJoin(s);
    var f := Forward(decode, turns, s, last, 0, false);
    JoinedPrefix(f.lines, AllLines(s), f.partial);
    CleanIsAll(decode, turns, s, last, 0, false);
  }

  /** A clean end has forwarded every line. */
  lemma {:induction false} CleanIsAll(decode: Bytes -> Event, turns: nat -> Turn, s: Bytes, last: ReadError, k: nat,
                                      completed: bool)
    ensures var f := Forward(decode, turns, s, last, k, completed);
            f.outcome == CleanEnd ==> last == Eof && f.partial == [] && f.lines == AllLines(s)
    decreases |s|
  {
    hide LineOf, Forward, AllLines, Completes;
    Round(decode, turns, s, last, k, completed);
    LinesUnfold(s);
    var l := LineOf(s);
    if l != [] && NEWLINE in l {
      CleanIsAll(decode, turns, s[|l|..], last, k + 1, completed || Completes(decode(l)));
    }
  }

  /** Undisturbed, a stream ends cleanly exactly if it ends at all and no line is too long. */
  lemma {:induction false} CleanExactly(decode: Bytes -> Event, turns: nat -> Turn, s: Bytes, last: ReadError, k: nat,
                                        completed: bool)
    requires forall j: nat :: turns(j) == Turn(false, None, false)
    requires last != NoError
    ensures Forward(decode, turns, s, last, k, completed).outcome == CleanEnd
            <==> last == Eof && forall i :: 0 <= i < |AllLines(s)| ==> |AllLines(s)[i]| <= MAX_LINE
    decreases |s|
  {
    hide LineOf, Forward, AllLines, Completes;
    Round(decode, turns, s, last, k, completed);
    LinesUnfold(s);
    var l := LineOf(s);
    if s != [] {
      assert AllLines(s)[0] == l;
      if NEWLINE in l && |l| <= MAX_LINE {
        CleanExactly(decode, turns, s[|l|..], last, k + 1, completed || Completes(decode(l)));
        assert forall i :: 1 <= i < |AllLines(s)| ==> AllLines(s)[i] == AllLines(s[|l|..])[i - 1];
        assert forall i :: 0 <= i < |AllLines(s[|l|..])| ==> AllLines(s[|l|..])[i] == AllLines(s)[i + 1];
      }
    }
  }

  /** A disconnect is classed by the lines written before it: gone if one of them completed the stream, else aborted. */
  lemma {:induction false} DisconnectClassed(decode: Bytes -> Event, turns: nat -> Turn, s: Bytes, last: ReadError,
                                             k: nat, completed: bool)
    ensures var f := Forward(decode, turns, s, last, k, completed);
            && (f.outcome == ClientGone ==> completed || AnyCompletes(decode, f.lines))
            && (f.outcome == ClientAborted ==> !completed && !AnyCompletes(decode, f.lines))
    decreases |s|
  {
    hide LineOf, Forward, Completes;
    Round(decode, turns, s, last, k, completed);
    var l := LineOf(s);
    AnyMore(decode, l, []);
    assert [l] + [] == [l];
    if l != [] && NEWLINE in l {
      var f := Forward(decode, turns, s[|l|..], last, k + 1, completed || Completes(decode(l)));
      DisconnectClassed(decode, turns, s[|l|..], last, k + 1, completed || Completes(decode(l)));
      AnyMore(decode, l, f.lines);
    }
  }

  /** The round in which forwarding ended: the one after the last whole line, unless an unfinished one was written. */
  function LastRound(f: Forwarding, k: nat): nat {
    var n := |f.lines|;
    if n > 0 && NEWLINE !in f.lines[n - 1] then k + n - 1 else k + n
  }

  /** How forwarding ends: a read error is passed on unless it is the end or a cancellation, a cancelled request and a
      failed write count as the client's leaving, and so does any error that is seen after a cancellation. */
  lemma {:induction false} OutcomeIs(decode: Bytes -> Event, turns: nat -> Turn, s: Bytes, last: ReadError, k: nat,
                                     completed: bool)
    ensures var f := Forward(decode, turns, s, last, k, completed);
            var t := turns(LastRound(f, k));
            match f.outcome
            case CleanEnd => last == Eof && !t.cancelled
            case ReadFailed(e) => e in {last, TooLarge} && e != Eof && e != Canceled && !t.cancelled && !t.cancelledLate
            case _ => t.cancelled || t.accepts.Some? || t.cancelledLate || last == Canceled
    decreases |s|
  {
    hide LineOf, Forward, Completes;
    Round(decode, turns, s, last, k, completed);
    var l := LineOf(s);
    if !turns(k).cancelled && |l| <= MAX_LINE && l != [] && turns(k).accepts.None? && NEWLINE in l {
      var completed1 := completed || Completes(decode(l));
      OutcomeIs(decode, turns, s[|l|..], last, k + 1, completed1);
      LaterRound(l, Forward(decode, turns, s[|l|..], last, k + 1, completed1), k);
    }
  }

  lemma LaterRound(l: Bytes, f: Forwarding, k: nat)
    requires NEWLINE in l
    ensures LastRound(Before([l], f), k) == LastRound(f, k + 1)
  {
    var g := Before([l], f);
    assert |f.lines| > 0 ==> g.lines[|g.lines| - 1] == f.lines[|f.lines| - 1];
  }

  lemma AnyMore(decode: Bytes -> Event, l: Bytes, lines: seq<Bytes>)
    ensures AnyCompletes(decode, [l] + lines) <==> Completes(decode(l)) || AnyCompletes(decode, lines)
  {
    hide Completes, EndsStream;
    CompletesEnds(decode(l));
    if Completes(decode(l)) { assert EndsStream(decode(([l] + lines)[0])); }
    if i :| 0 <= i < |lines| && EndsStream(decode(lines[i])) { assert ([l] + lines)[i + 1] == lines[i]; }
  }

  /** Chat and Responses events say by their content that they carry output; an Anthropic one must also be a delta. */
  predicate CarriesOutput(e: Event) {
    || (e.ChatEvent? && e.tokens)
    || (e.ResponsesEvent? && |e.kind| >= 6 && e.kind[|e.kind| - 6..] == ".delta")
    || (e.AnthropicEvent? && e.kind == "content_block_delta" && e.tokens)
  }

  lemma TokensCarry(e: Event)
    ensures HasTokens(e) <==> CarriesOutput(e)
  {
  }

  /** The flags are exactly whether a completing line, and a line with output, was seen. */
  lemma {:induction false} CompletedMeans(decode: Bytes -> Event, lines: seq<Bytes>)
    ensures ReadingOf(decode, lines).completed <==> AnyCompletes(decode, lines)
    ensures ReadingOf(decode, lines).tokenSeen <==> exists i :: 0 <= i < |lines| && CarriesOutput(decode(lines[i]))
  {
    hide Completes, UsageStep, HasTokens, EndsStream, CarriesOutput;
    if lines != [] {
      var n := |lines| - 1;
      CompletedMeans(decode, lines[..n]);
      CompletesEnds(decode(lines[n]));
      TokensCarry(decode(lines[n]));
      if i :| 0 <= i < n && EndsStream(decode(lines[..n][i])) { assert lines[..n][i] == lines[i]; }
      assert forall i :: 0 <= i < n ==> lines[..n][i] == lines[i];
    }
  }

  // ---------- merged usage ----------

  function MergeAll(us: seq<AnthropicUsage>): Option<Usage> {
    if us == [] then None else Merge(MergeAll(us[..|us| - 1]), Some(us[|us| - 1]))
  }

  /** The last positive number, or the first one when no later one is positive. */
  function LastPositive(xs: seq<int>): int
    requires xs != []
  {
    var n := |xs| - 1;
    if n == 0 || xs[n] > 0 then xs[n] else LastPositive(xs[..n])
  }

  /** Each merged count is the last positive one reported for it, and the total is always input plus output. */
  lemma {:induction false} MergedCounts(us: seq<AnthropicUsage>)
    requires us != []
    ensures var r := MergeAll(us);
            && r.Some? && r.value.total == r.value.input + r.value.output
            && r.value.input == LastPositive(Counts(us, (u: AnthropicUsage) => u.input + u.creation + u.read_))
            && r.value.output == LastPositive(Counts(us, (u: AnthropicUsage) => u.output))
            && r.value.cached == LastPositive(Counts(us, (u: AnthropicUsage) => u.read_))
            && r.value.creation == LastPositive(Counts(us, (u: AnthropicUsage) => u.creation))
  {
    var n := |us| - 1;
    if n > 0 {
      MergedCounts(us[..n]);
      LastPositiveMore(us, (u: AnthropicUsage) => u.input + u.creation + u.read_);
      LastPositiveMore(us, (u: AnthropicUsage) => u.output);
      LastPositiveMore(us, (u: AnthropicUsage) => u.read_);
      LastPositiveMore(us, (u: AnthropicUsage) => u.creation);
    }
  }

  function Counts(us: seq<AnthropicUsage>, f: AnthropicUsage -> int): (r: seq<int>)
    ensures |r| == |us|
  {
    seq(|us|, i requires 0 <= i < |us| => f(us[i]))
  }

  lemma LastPositiveMore(us: seq<AnthropicUsage>, f: AnthropicUsage -> int)
    requires |us| > 1
    ensures LastPositive(Counts(us, f)) == Newer(LastPositive(Counts(us[..|us| - 1], f)), f(us[|us| - 1]))
  {
    assert Counts(us, f)[..|us| - 1] == Counts(us[..|us| - 1], f);
  }

  // ---------- the usage that is recorded ----------

  /** The usage a Chat or Responses event reports. */
  predicate Reports(e: Event, u: Usage) { (e.ChatEvent? || e.ResponsesEvent?) && e.usage == Some(u) }

  predicate ReportsLast(decode: Bytes -> Event, lines: seq<Bytes>, i: nat, u: Usage) {
    && i < |lines| && Reports(decode(lines[i]), u)
    && forall j :: i < j < |lines| ==> !ReportsAny(decode(lines[j]))
  }

  predicate ReportsAny(e: Event) { (e.ChatEvent? || e.ResponsesEvent?) && e.usage.Some? }

  /** Over a Chat or Responses stream the usage is the one reported last. */
  lemma {:induction false} UsageIsLast(decode: Bytes -> Event, lines: seq<Bytes>)
    requires forall i :: 0 <= i < |lines| ==> !decode(lines[i]).AnthropicEvent?
    ensures var usage := ReadingOf(decode, lines).usage;
            && (usage.Some? ==> exists i: nat :: ReportsLast(decode, lines, i, usage.value))
            && (usage.None? ==> forall i :: 0 <= i < |lines| ==> !ReportsAny(decode(lines[i])))
  {
    hide Completes, HasTokens;
    if lines != [] {
      var n := |lines| - 1;
      assert forall i :: 0 <= i < n ==> lines[..n][i] == lines[i];
      UsageIsLast(decode, lines[..n]);
      var usage := ReadingOf(decode, lines).usage;
      if ReportsAny(decode(lines[n])) {
        assert ReportsLast(decode, lines, n, usage.value);
      } else if usage.Some? {
        var i: nat :| ReportsLast(decode, lines[..n], i, usage.value);
        assert ReportsLast(decode, lines, i, usage.value);
      }
    }
  }

  /** The usages an Anthropic event reports: that of its message, then its own. */
  function ReportsOf(e: Event): seq<AnthropicUsage> {
    if !e.AnthropicEvent? then []
    else
      (if e.atStart.Some? then [e.atStart.value] else []) + (if e.delta.Some? then [e.delta.value] else [])
  }

  function Reported(decode: Bytes -> Event, lines: seq<Bytes>): seq<AnthropicUsage> {
    if lines == [] then [] else Reported(decode, lines[..|lines| - 1]) + ReportsOf(decode(lines[|lines| - 1]))
  }

  /** Over an Anthropic stream it is everything reported, merged. */
  lemma {:induction false} UsageIsMerged(decode: Bytes -> Event, lines: seq<Bytes>)
    requires forall i :: 0 <= i < |lines| ==> decode(lines[i]).AnthropicEvent? || decode(lines[i]).NoEvent?
    ensures ReadingOf(decode, lines).usage == MergeAll(Reported(decode, lines))
  {
    hide Completes, HasTokens, UsageStep, MergeAll, ReportsOf;
    if lines == [] {
      NothingReported();
    } else {
      var n := |lines| - 1;
      assert forall i :: 0 <= i < n ==> lines[..n][i] == lines[i];
      UsageIsMerged(decode, lines[..n]);
      EventMerges(Reported(decode, lines[..n]), decode(lines[n]));
    }
  }

  lemma NothingReported()
    ensures MergeAll([]) == None
  {
  }

  lemma EventMerges(us: seq<AnthropicUsage>, e: Event)
    requires e.AnthropicEvent? || e.NoEvent?
    ensures MergeAll(us + ReportsOf(e)) == UsageStep(MergeAll(us), e)
  {
    hide Merge, MergeAll;
    if e.NoEvent? {
      assert us + [] == us;
    } else {
      var start := if e.atStart.Some? then [e.atStart.value] else [];
      MergesMore(us, e.atStart);
      MergesMore(us + start, e.delta);
      assert us + start + (if e.delta.Some? then [e.delta.value] else []) == us + ReportsOf(e);
    }
  }

  lemma MergesMore(us: seq<AnthropicUsage>, u: Option<AnthropicUsage>)
    ensures MergeAll(us + if u.Some? then [u.value] else []) == Merge(MergeAll(us), u)
  {
    hide FromAnthropic, Newer;
    if u.Some? { assert (us + [u.value])[..|us|] == us; } else { assert us + [] == us; }
  }
}
