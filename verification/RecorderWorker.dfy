/**
 The recorder's goroutine bodies as code that updates the recorder: each method is one atomic step of the transition
 system, and the drain loop is its run of steps while producers go on sending. (stats/stats.go)
 */
module RecorderWorker {
  import opened Recorder

  class RecorderObject {
    const capacity: nat
    var ch: seq<Record>
    var closed: bool
    var stop: bool
    var done: bool
    var buf: seq<Record>
    var inflight: map<nat, Record>  // the producers past their check, each with its record
    ghost var worker: Worker
    ghost var closer: Closer
    ghost var accepted: seq<Record>
    ghost var batches: seq<seq<Record>>
    ghost var acceptedAtClose: nat
    ghost var inflightAtClose: map<nat, Record>
    ghost var late: seq<nat>

    ghost function View(): State
      reads this
    {
      State(capacity, ch, closed, stop, done, worker, buf, closer, inflight, accepted, batches, acceptedAtClose,
            inflightAtClose, late)
    }

    constructor (buffer: int)
      ensures Init(View(), buffer)
    {
      capacity := if buffer <= 0 then DEFAULT_BUFFER else buffer;
      ch, closed, stop, done, buf := [], false, false, false, [];
      worker, closer, inflight := Working, NotCalled, map[];
      accepted, batches, acceptedAtClose, inflightAtClose, late := [], [], 0, map[], [];
    }

    /** The non-blocking send inside Record. */
    method TrySend(producer: nat, rec: Record) returns (sent: bool)
      requires Enabled(View(), Send(producer)) && inflight[producer] == rec
      modifies this
      ensures View() == Next(old(View()), Send(producer)) && sent == (|old(ch)| < capacity)
    {
      sent := |ch| < capacity;
      inflight := inflight - {producer};
      if sent {
        ch := ch + [rec];
        accepted := accepted + [rec];
        late := if closed then late + [producer] else late;
      }
    }

    method Flush()
      modifies this
      ensures View() == Flushed(old(View()))
    {
      if |buf| == 0 {
        return;
      }
      batches := batches + [buf];
      buf := [];
    }

    /** Take one record off the channel. */
    method TakeOne()
      requires ch != []
      modifies this
      ensures View() == Take(old(View()))
    {
      buf := buf + [ch[0]];
      ch := ch[1..];
      if |buf| >= BATCH_SIZE {
        Flush();
      }
    }

    /** Some producers get to send before the worker looks at the channel again. */
    method LetSend(producers: seq<nat>)
      modifies this
      ensures View() == Arrived(old(View()), producers)
    {
      for i := 0 to |producers|
        invariant View() == Arrived(old(View()), producers[..i])
      {
        assert producers[..i + 1][..i] == producers[..i];
        if producers[i] in inflight {
          var sent := TrySend(producers[i], inflight[producers[i]]);
        }
      }
      assert producers[..|producers|] == producers;
    }

    /** The inner loop after the stop signal: empty the channel, flush what is left, signal done. The producers
        `arrivals(k)` send before its k-th look at the channel. */
    method Drain(arrivals: nat -> seq<nat>)
      requires worker == Draining
      modifies this
      ensures View() == Drained(old(View()), arrivals, 0)
    {
      hide Take, Flushed, Arrived, Drained, DrainedFrom, Next;
      var k := 0;
      DrainStarts(View(), arrivals);
      LetSend(arrivals(k));
      while |ch| > 0
        invariant worker == Draining && DrainedFrom(View(), arrivals, k) == Drained(old(View()), arrivals, 0)
        decreases |ch| + |inflight|
      {
        DrainStep(View(), arrivals, k);
        TakeShape(View());
        TakeOne();
        k := k + 1;
        LetSend(arrivals(k));
      }
      DrainStops(View(), arrivals, k);
      FlushShape(View());
      Flush();
      worker := Exited;
      done := true;
    }

    method SetClosedFlag()
      requires Enabled(View(), SetClosed)
      modifies this
      ensures View() == Next(old(View()), SetClosed)
    {
      closed := true;
      closer, acceptedAtClose, inflightAtClose := FlagSet, |accepted|, inflight;
    }
  }

  /** Some producers in flight try to send, one after the other. */
  ghost function Arrived(s: State, producers: seq<nat>): (r: State)
    ensures |r.ch| + |r.inflight| <= |s.ch| + |s.inflight| && r.worker == s.worker
  {
    if producers == [] then s
    else
      var s1, p := Arrived(s, producers[..|producers| - 1]), producers[|producers| - 1];
      if p in s1.inflight then
        RemoveOne(s1.inflight, p);
        Next(s1, Send(p))
      else s1
  }

  /** Draining to the end, with producers sending before each look at the channel from the `k`-th on. */
  ghost function Drained(s: State, arrivals: nat -> seq<nat>, k: nat): State
    decreases |s.ch| + |s.inflight|, 1
  {
    DrainedFrom(Arrived(s, arrivals(k)), arrivals, k)
  }

  /** The same from the `k`-th look at the channel. */
  ghost function DrainedFrom(s: State, arrivals: nat -> seq<nat>, k: nat): State
    decreases |s.ch| + |s.inflight|, 0
  {
    if s.ch == [] then Flushed(s).(worker := Exited, done := true)
    else
      TakeShape(s);
      Drained(Take(s), arrivals, k + 1)
  }

  lemma DrainStarts(s: State, arrivals: nat -> seq<nat>)
    ensures Drained(s, arrivals, 0) == DrainedFrom(Arrived(s, arrivals(0)), arrivals, 0)
  {
  }

  lemma DrainStep(s: State, arrivals: nat -> seq<nat>, k: nat)
    requires s.ch != []
    ensures DrainedFrom(s, arrivals, k) == DrainedFrom(Arrived(Take(s), arrivals(k + 1)), arrivals, k + 1)
  {
    hide Take, Flushed, Arrived;
  }

  lemma DrainStops(s: State, arrivals: nat -> seq<nat>, k: nat)
    requires s.ch == []
    ensures DrainedFrom(s, arrivals, k) == Flushed(s).(worker := Exited, done := true)
  {
    hide Take, Flushed, Arrived;
  }

  lemma TakeShape(s: State)
    requires s.ch != []
    ensures |Take(s).ch| == |s.ch| - 1 && Take(s).inflight == s.inflight && Take(s).worker == s.worker
  {
  }

  lemma {:induction false} ArrivedInv(s: State, producers: seq<nat>)
    requires Inv(s)
    ensures Inv(Arrived(s, producers))
  {
    hide Inv, Next;
    if producers != [] {
      var s1, p := Arrived(s, producers[..|producers| - 1]), producers[|producers| - 1];
      ArrivedInv(s, producers[..|producers| - 1]);
      if p in s1.inflight { SendInv(s1, p); }
    }
  }

  /** Whoever sends meanwhile, the drain hands everything accepted until then to the database, leaves nothing behind and
      keeps the invariant. */
  lemma {:induction false} DrainedFlushesAll(s: State, arrivals: nat -> seq<nat>, k: nat)
    requires Inv(s) && s.worker == Draining
    ensures var d := Drained(s, arrivals, k);
            && d.ch == [] && d.buf == [] && Concat(d.batches) == d.accepted && d.worker == Exited && d.done && Inv(d)
    decreases |s.ch| + |s.inflight|
  {
    hide Concat, Take, Flushed, Inv, Arrived;
    var s1 := Arrived(s, arrivals(k));
    ArrivedInv(s, arrivals(k));
    if s1.ch == [] {
      FlushShape(s1);
      NextInv(s1, DrainEmpty);
      DrainedAll(Next(s1, DrainEmpty));
    } else {
      TakeShape(s1);
      NextInv(s1, DrainOne);
      DrainedFlushesAll(Take(s1), arrivals, k + 1);
    }
  }

  lemma DrainedAll(s: State)
    requires Inv(s) && s.worker == Exited && s.ch == []
    ensures s.buf == [] && Concat(s.batches) == s.accepted
  {
    hide Concat;
    assert Concat(s.batches) + [] + [] == Concat(s.batches);
  }
}
