/**
 The asynchronous metrics recorder as a transition system: any number of producers, a bounded channel, one batching
 worker and the close handshake. Each step is one atomic action of one goroutine. (stats/stats.go)
 */
module Recorder {
  const BATCH_SIZE: nat := 64
  const DEFAULT_BUFFER: nat := 1024

  /** One measured request; what it holds does not matter here. */
  type Record = nat

  /** The worker goroutine: in its main loop, draining after it saw the stop signal, or gone. */
  datatype Worker = Working | Draining | Exited

  /** The goroutine running the body of closeOnce: not called yet, closed stored, stop closed, returned. */
  datatype Closer = NotCalled | FlagSet | StopSent | Returned

  /**
   `inflight` holds, per producer inside Record past its check of `closed`, the record it is about to send.
   The last five fields are history: the accepted sends, the batches handed to the database in order, how many sends
   had been accepted and which producers were past the check when Close set the flag, and the producers whose sends
   were accepted since.
   */
  datatype State = State(
    capacity: nat, ch: seq<Record>, closed: bool, stop: bool, done: bool,
    worker: Worker, buf: seq<Record>, closer: Closer, inflight: map<nat, Record>,
    accepted: seq<Record>, batches: seq<seq<Record>>, acceptedAtClose: nat, inflightAtClose: map<nat, Record>,
    late: seq<nat>)

  /** NewRecorder's channel capacity. */
  function Buffer(requested: int): nat { if requested <= 0 then DEFAULT_BUFFER else requested }

  ghost predicate Init(s: State, requested: int) {
    s == State(Buffer(requested), [], false, false, false, Working, [], NotCalled, map[], [], [], 0, map[], [])
  }

  // ---------- steps ----------

  datatype Action =
    | CheckClosed(producer: nat, record: Record)  // Record loads the flag
    | Send(producer: nat)                         // ... and then tries to send
    | Receive                                     // the worker's main loop takes a record
    | Tick                                        // ... or the ticker fires
    | SeeStop                                     // ... or it sees the stop signal
    | DrainOne
    | DrainEmpty
    | SetClosed                                   // Close, first call: three steps
    | SendStop
    | AwaitDone
    | CloseAgain                                  // Close, any later call once the first has returned

  function Flushed(s: State): State {
    if s.buf == [] then s else s.(batches := s.batches + [s.buf], buf := [])
  }

  /** Move the head of the channel into the buffer; a full buffer is flushed. */
  function Take(s: State): State
    requires s.ch != []
  {
    var s1 := s.(buf := s.buf + [s.ch[0]], ch := s.ch[1..]);
    if |s1.buf| >= BATCH_SIZE then Flushed(s1) else s1
  }

  predicate Enabled(s: State, a: Action) {
    match a
    case CheckClosed(p, _) => p !in s.inflight
    case Send(p) => p in s.inflight
    case Receive => s.worker == Working && s.ch != []
    case Tick => s.worker == Working
    case SeeStop => s.worker == Working && s.stop
    case DrainOne => s.worker == Draining && s.ch != []
    case DrainEmpty => s.worker == Draining && s.ch == []
    case SetClosed => s.closer == NotCalled
    case SendStop => s.closer == FlagSet
    case AwaitDone => s.closer == StopSent && s.done
    case CloseAgain => s.closer == Returned
  }

  function Next(s: State, a: Action): State
    requires Enabled(s, a)
  {
    match a
    case CheckClosed(p, rec) => if s.closed then s else s.(inflight := s.inflight[p := rec])
    case Send(p) =>
      var s1 := s.(inflight := s.inflight - {p});
      if |s.ch| < s.capacity then
        s1.(ch := s.ch + [s.inflight[p]], accepted := s.accepted + [s.inflight[p]],
            late := if s.closed then s.late + [p] else s.late)
      else s1
    case Receive => Take(s)
    case Tick => Flushed(s)
    case SeeStop => s.(worker := Draining)
    case DrainOne => Take(s)
    case DrainEmpty => Flushed(s).(worker := Exited, done := true)
    case SetClosed => s.(closed := true, closer := FlagSet, acceptedAtClose := |s.accepted|,
                         inflightAtClose := s.inflight)
    case SendStop => s.(stop := true, closer := StopSent)
    case AwaitDone => s.(closer := Returned)
    case CloseAgain => s
  }

  /** A run: each state follows from the one before by an enabled action. */
  ghost predicate IsRun(run: seq<State>, actions: seq<Action>, requested: int) {
    && |run| == |actions| + 1 && Init(run[0], requested)
    && forall i :: 0 <= i < |actions| ==> Enabled(run[i], actions[i]) && run[i + 1] == Next(run[i], actions[i])
  }

  // ---------- conservation ----------

  function Concat(batches: seq<seq<Record>>): seq<Record> {
    if batches == [] then [] else Concat(batches[..|batches| - 1]) + batches[|batches| - 1]
  }

  lemma ConcatAppend(batches: seq<seq<Record>>, b: seq<Record>)
    ensures Concat(batches + [b]) == Concat(batches) + b
  {
    assert (batches + [b])[..|batches|] == batches;
  }

  /** Every accepted send is in exactly one place, in the order of acceptance: in a batch, in the buffer or in the
      channel. */
  ghost predicate Conserved(s: State) {
    Concat(s.batches) + s.buf + s.ch == s.accepted
  }

  ghost predicate Bounded(s: State) {
    && |s.ch| <= s.capacity && |s.buf| < BATCH_SIZE
    && forall i :: 0 <= i < |s.batches| ==> 1 <= |s.batches[i]| <= BATCH_SIZE
  }

  /** How the close handshake, the worker and the producers stand to each other. */
  ghost predicate Handshake(s: State) {
    && (s.closed <==> s.closer != NotCalled)
    && (s.stop <==> s.closer == StopSent || s.closer == Returned)
    && (s.done <==> s.worker == Exited)
    && (s.worker != Working ==> s.stop)
    && (s.closer == Returned ==> s.done)
    && (s.worker == Exited ==> s.buf == [])
  }

  /** Since Close set the flag, every send accepted is that of a producer then past its check, each at most once. */
  ghost predicate Racing(s: State) {
    && (s.closed ==> |s.accepted| == s.acceptedAtClose + |s.late|)
    && (s.closed ==> LateSends(s.accepted, s.acceptedAtClose, s.late, s.inflightAtClose))
    && (s.closed ==> StillInflight(s.inflight, s.late, s.inflightAtClose))
    && (!s.closed ==> s.late == [] && s.acceptedAtClose == 0)
    && (s.worker == Exited ==> s.acceptedAtClose <= |Concat(s.batches)|)
  }

  ghost predicate LateSends(accepted: seq<Record>, before: nat, late: seq<nat>, racing: map<nat, Record>) {
    && (forall i :: 0 <= i < |late| && before + i < |accepted| ==>
          late[i] in racing && accepted[before + i] == racing[late[i]])
    && (forall i, j :: 0 <= i < j < |late| ==> late[i] != late[j])
  }

  /** The producers still to send are among those past their check then, with the same record, and have not sent
      since. */
  ghost predicate StillInflight(inflight: map<nat, Record>, late: seq<nat>, racing: map<nat, Record>) {
    forall p :: p in inflight ==> p in racing && inflight[p] == racing[p] && p !in late
  }

  ghost predicate Inv(s: State) {
    Conserved(s) && Bounded(s) && Handshake(s) && Racing(s)
  }

  lemma InitInv(s: State, requested: int)
    requires Init(s, requested)
    ensures Inv(s) && s.capacity > 0
  {
  }

  lemma FlushKeeps(s: State)
    requires Concat(s.batches) + s.buf + s.ch == s.accepted && |s.buf| <= BATCH_SIZE
    requires forall i :: 0 <= i < |s.batches| ==> 1 <= |s.batches[i]| <= BATCH_SIZE
    ensures var s1 := Flushed(s);
            && s1 == s.(buf := [], batches := s1.batches) && Conserved(s1)
            && Concat(s1.batches) == Concat(s.batches) + s.buf
            && forall i :: 0 <= i < |s1.batches| ==> 1 <= |s1.batches[i]| <= BATCH_SIZE
  {
    if s.buf == [] {
      assert Concat(s.batches) + [] == Concat(s.batches);
    } else {
      ConcatAppend(s.batches, s.buf);
      assert Concat(s.batches) + s.buf + [] + s.ch == Concat(s.batches) + s.buf + s.ch;
    }
  }

  lemma TakeKeeps(s: State)
    requires Conserved(s) && Bounded(s) && s.ch != []
    ensures var s1 := Take(s);
            && Conserved(s1) && Bounded(s1)
            && s1 == s.(buf := s1.buf, ch := s1.ch, batches := s1.batches)
            && |Concat(s1.batches)| >= |Concat(s.batches)| && |s1.ch| == |s.ch| - 1
  {
    var s1 := s.(buf := s.buf + [s.ch[0]], ch := s.ch[1..]);
    assert Concat(s.batches) + (s.buf + [s.ch[0]]) + s.ch[1..] == Concat(s.batches) + s.buf + ([s.ch[0]] + s.ch[1..]);
    assert [s.ch[0]] + s.ch[1..] == s.ch;
    FlushKeeps(s1);
  }

  /** Every step keeps the invariant. */
  lemma NextInv(s: State, a: Action)
    requires Inv(s) && Enabled(s, a)
    ensures Inv(Next(s, a))
  {
    hide Concat, Take, Flushed, LateSends, StillInflight;
    match a {
      case CheckClosed(p, rec) => assert |s.inflight[p := rec]| == |s.inflight| + 1;
      case Send(p) => SendInv(s, p);
      case Receive => TakeKeeps(s);
      case DrainOne => TakeKeeps(s);
      case Tick => FlushKeeps(s);
      case DrainEmpty => FlushKeeps(s);
      case SetClosed => ClosingRace(s);
      case _ =>
    }
  }

  lemma SameCapacity(s: State, a: Action)
    requires Enabled(s, a)
    ensures Next(s, a).capacity == s.capacity
  {
  }

  lemma ClosingRace(s: State)
    requires Inv(s) && Enabled(s, SetClosed)
    ensures Racing(Next(s, SetClosed))
  {
    hide Concat;
  }

  lemma SendInv(s: State, p: nat)
    requires Inv(s) && p in s.inflight
    ensures Inv(Next(s, Send(p)))
  {
    hide Concat, Take, Flushed;
    assert Concat(s.batches) + s.buf + (s.ch + [s.inflight[p]])
        == Concat(s.batches) + s.buf + s.ch + [s.inflight[p]];
    SendRacing(s, p);
  }

  lemma SendRacing(s: State, p: nat)
    requires Racing(s) && p in s.inflight
    ensures Racing(Next(s, Send(p)))
  {
    hide Concat;
    var s1 := Next(s, Send(p));
    if s.closed {
      forall i | 0 <= i < |s1.late|
        ensures s1.late[i] in s1.inflightAtClose
        ensures s1.acceptedAtClose + i < |s1.accepted| ==>
          s1.accepted[s1.acceptedAtClose + i] == s1.inflightAtClose[s1.late[i]]
      {
        if i < |s.late| { assert s1.late[i] == s.late[i]; }
      }
    }
  }

  lemma RemoveOne(m: map<nat, Record>, p: nat)
    requires p in m
    ensures |m - {p}| == |m| - 1
  {
    var rest := m - {p};
    assert rest[p := m[p]] == m;
  }

  lemma {:induction false} RunInv(run: seq<State>, actions: seq<Action>, requested: int, i: nat)
    requires IsRun(run, actions, requested) && i < |run|
    ensures Inv(run[i]) && run[i].capacity == Buffer(requested)
  {
    hide Inv, Next, Enabled;
    if i == 0 {
      InitInv(run[0], requested);
    } else {
      RunInv(run, actions, requested, i - 1);
      NextInv(run[i - 1], actions[i - 1]);
      SameCapacity(run[i - 1], actions[i - 1]);
    }
  }

  /**
   Recorder conservation, in every reachable interleaving: batches, buffer and channel together are the accepted sends
   in order, each exactly once; batches hold 1 to 64 records and the channel never exceeds its capacity.
   */
  lemma RecorderConservation(run: seq<State>, actions: seq<Action>, requested: int, i: nat)
    requires IsRun(run, actions, requested) && i < |run|
    ensures var s := run[i];
            && Concat(s.batches) + s.buf + s.ch == s.accepted
            && |s.ch| <= Buffer(requested)
            && forall k :: 0 <= k < |s.batches| ==> 1 <= |s.batches[k]| <= BATCH_SIZE
  {
    RunInv(run, actions, requested, i);
  }

  /** Every record in the channel is that of a producer past its check when Close set the flag, each of another one. */
  ghost predicate StrandedByRace(s: State) {
    && |s.ch| <= |s.late|
    && (forall i, j :: 0 <= i < j < |s.late| ==> s.late[i] != s.late[j])
    && forall j :: 0 <= j < |s.ch| ==> SentLate(s, s.ch[j], s.late[|s.late| - |s.ch| + j])
  }

  predicate SentLate(s: State, rec: Record, p: nat) { p in s.inflightAtClose && s.inflightAtClose[p] == rec }

  /**
   Recorder shutdown: when Close has returned, every send accepted before it set the flag is in a batch that was
   handed to the database. What is left in the channel are records of producers that were past their check of the
   flag at that moment, in the order of their sends, at most one of each.
   */
  lemma CloseFlushes(run: seq<State>, actions: seq<Action>, requested: int, i: nat)
    requires IsRun(run, actions, requested) && i < |run| && run[i].closer == Returned
    ensures var s := run[i];
            && s.acceptedAtClose <= |s.accepted|
            && s.accepted[..s.acceptedAtClose] <= Concat(s.batches)
            && s.buf == [] && Concat(s.batches) + s.ch == s.accepted
            && StrandedByRace(s)
  {
    hide Concat, LateSends, StillInflight;
    RunInv(run, actions, requested, i);
    var s := run[i];
    assert Concat(s.batches) + s.buf + s.ch == Concat(s.batches) + s.ch;
    assert |s.accepted| == |Concat(s.batches)| + |s.ch|;
    assert s.accepted[..s.acceptedAtClose] == Concat(s.batches)[..s.acceptedAtClose];
    StrandedAreLate(s, |Concat(s.batches)|);
  }

  lemma StrandedAreLate(s: State, n: nat)
    requires LateSends(s.accepted, s.acceptedAtClose, s.late, s.inflightAtClose)
    requires |s.accepted| == s.acceptedAtClose + |s.late| && s.acceptedAtClose <= n <= |s.accepted|
    requires s.ch == s.accepted[n..]
    ensures StrandedByRace(s)
  {
    forall j | 0 <= j < |s.ch| ensures SentLate(s, s.ch[j], s.late[|s.late| - |s.ch| + j]) {
      var i := |s.late| - |s.ch| + j;
      assert s.accepted[s.acceptedAtClose + i] == s.ch[j];
    }
  }

  // ---------- what is stranded ----------

  /** A try-send that finds room. */
  predicate AcceptedSend(s: State, a: Action) { a.Send? && a.producer in s.inflight && |s.ch| < s.capacity }

  /** Once the worker is gone nothing is handed over any more, and the channel only grows, by accepted sends. */
  lemma ExitedStep(s: State, a: Action)
    requires Inv(s) && Enabled(s, a) && s.worker == Exited
    ensures var s1 := Next(s, a);
            && s1.worker == Exited && s1.batches == s.batches && s1.buf == s.buf
            && s1.ch == if AcceptedSend(s, a) then s.ch + [s.inflight[a.producer]] else s.ch
  {
    hide Concat, LateSends, StillInflight;
  }

  /** From then on: the batches stay as they are, and a record in the channel stays there. */
  lemma {:induction false} StrandedStays(run: seq<State>, actions: seq<Action>, requested: int, i: nat, j: nat)
    requires IsRun(run, actions, requested) && i <= j < |run| && run[i].worker == Exited
    ensures run[j].worker == Exited && run[j].batches == run[i].batches && run[i].ch <= run[j].ch
  {
    hide Inv, Next;
    if i < j {
      StrandedStays(run, actions, requested, i, j - 1);
      RunInv(run, actions, requested, j - 1);
      ExitedStep(run[j - 1], actions[j - 1]);
    }
  }

  /** A send accepted after the worker had exited, which it does in the step that found the channel empty. */
  ghost predicate SentTooLate(run: seq<State>, actions: seq<Action>, i: nat)
    requires i < |run| == |actions| + 1
  {
    exists j :: 0 <= j < i && run[j].worker == Exited && AcceptedSend(run[j], actions[j])
  }

  /** Something is stranded exactly when a send was accepted after the worker's exit. */
  lemma {:induction false} StrandedExactly(run: seq<State>, actions: seq<Action>, requested: int, i: nat)
    requires IsRun(run, actions, requested) && i < |run| && run[i].worker == Exited
    ensures run[i].ch != [] <==> SentTooLate(run, actions, i)
  {
    hide Inv, Next, Enabled, SentTooLate, AcceptedSend;
    if i > 0 {
      var s, a := run[i - 1], actions[i - 1];
      RunInv(run, actions, requested, i - 1);
      SentTooLateStep(run, actions, i);
      if s.worker == Exited {
        StrandedExactly(run, actions, requested, i - 1);
        ExitedStep(s, a);
      } else {
        ExitStep(s, a);
        NotYetExited(run, actions, requested, i - 1);
        NoneTooLate(run, actions, i - 1);
      }
    }
  }

  /** The worker exits in the step that found the channel empty. */
  lemma ExitStep(s: State, a: Action)
    requires Enabled(s, a) && s.worker != Exited && Next(s, a).worker == Exited
    ensures a.DrainEmpty? && Next(s, a).ch == []
  {
    hide Take, Flushed;
    if a.Receive? || a.DrainOne? { TakeIsTaking(s); }
    FlushShape(s);
  }

  lemma TakeIsTaking(s: State)
    requires s.ch != []
    ensures Take(s).worker == s.worker
  {
  }

  lemma SentTooLateStep(run: seq<State>, actions: seq<Action>, i: nat)
    requires 0 < i < |run| == |actions| + 1
    ensures SentTooLate(run, actions, i) <==>
            || SentTooLate(run, actions, i - 1)
            || (run[i - 1].worker == Exited && AcceptedSend(run[i - 1], actions[i - 1]))
  {
    hide AcceptedSend;
  }

  lemma NoneTooLate(run: seq<State>, actions: seq<Action>, i: nat)
    requires i < |run| == |actions| + 1 && forall j :: 0 <= j <= i ==> run[j].worker != Exited
    ensures !SentTooLate(run, actions, i)
  {
    hide AcceptedSend;
  }

  /** Before the worker has exited, it had not exited earlier either. */
  lemma {:induction false} NotYetExited(run: seq<State>, actions: seq<Action>, requested: int, i: nat)
    requires IsRun(run, actions, requested) && i < |run| && run[i].worker != Exited
    ensures forall j :: 0 <= j <= i ==> run[j].worker != Exited
  {
    forall j | 0 <= j <= i ensures run[j].worker != Exited {
      if run[j].worker == Exited { StrandedStays(run, actions, requested, j, i); }
    }
  }

  // ---------- the drain ends ----------

  /** Steps that change nothing: a tick on an empty buffer, a refused Record, a repeated Close. */
  predicate Idle(s: State, a: Action) {
    a.CloseAgain? || (a.Tick? && s.buf == []) || (a.CheckClosed? && s.closed)
  }

  function Rank(w: Worker): nat { match w case Working => 2 case Draining => 1 case Exited => 0 }

  function Phase(c: Closer): nat { match c case NotCalled => 3 case FlagSet => 2 case StopSent => 1 case Returned => 0 }

  /** Work left once the flag is set: in-flight producers, channel and buffer, then the handshake. */
  function Remaining(s: State): nat { 3 * |s.inflight| + 2 * |s.ch| + |s.buf| + Rank(s.worker) + Phase(s.closer) }

  lemma FlushShape(s: State)
    ensures Flushed(s) == s.(batches := Flushed(s).batches, buf := [])
  {
  }

  lemma SendUses(s: State, p: nat)
    requires p in s.inflight
    ensures Remaining(Next(s, Send(p))) < Remaining(s)
  {
    RemoveOne(s.inflight, p);
  }

  lemma TakeUses(s: State)
    requires Conserved(s) && Bounded(s) && s.ch != []
    ensures Remaining(Take(s)) < Remaining(s)
  {
    hide Conserved, Bounded, Take;
    TakeKeeps(s);
    TakeShrinks(s);
  }

  /** Idle steps change nothing; after Close has set the flag every other step uses up some of the remaining work. */
  lemma DrainEnds(s: State, a: Action)
    requires Inv(s) && Enabled(s, a)
    ensures Idle(s, a) ==> Next(s, a) == s
    ensures s.closed && !Idle(s, a) ==> Remaining(Next(s, a)) < Remaining(s)
  {
    hide Concat, Take, Flushed, Conserved, Racing;
    if a.Send? {
      SendUses(s, a.producer);
    } else if a.Receive? || a.DrainOne? {
      TakeUses(s);
    } else if a.Tick? && s.buf == [] {
      EmptyFlush(s);
    } else {
      FlushShape(s);
    }
  }

  lemma EmptyFlush(s: State)
    requires s.buf == []
    ensures Flushed(s) == s
  {
  }

  lemma TakeShrinks(s: State)
    requires s.ch != []
    ensures |Take(s).buf| <= |s.buf| + 1
  {
  }

  /** Until Close has returned, some step that is not idle can be taken: the handshake cannot get stuck. */
  lemma NeverStuck(s: State)
    requires Inv(s) && s.closed && s.closer != Returned
    ensures exists a :: Enabled(s, a) && !Idle(s, a)
  {
    if s.closer == FlagSet {
      assert Enabled(s, SendStop) && !Idle(s, SendStop);
    } else if s.worker == Working {
      assert Enabled(s, SeeStop) && !Idle(s, SeeStop);
    } else if s.worker == Draining {
      if s.ch != [] {
        assert Enabled(s, DrainOne) && !Idle(s, DrainOne);
      } else {
        assert Enabled(s, DrainEmpty) && !Idle(s, DrainEmpty);
      }
    } else {
      assert Enabled(s, AwaitDone) && !Idle(s, AwaitDone);
    }
  }

  /** A run of steps after the flag is set has at most Remaining steps that are not idle. */
  function Busy(run: seq<State>, actions: seq<Action>, from: nat): nat
    requires |run| == |actions| + 1 && from <= |actions|
    decreases |actions| - from
  {
    if from == |actions| then 0
    else (if Idle(run[from], actions[from]) then 0 else 1) + Busy(run, actions, from + 1)
  }

  lemma {:induction false} DrainBounded(run: seq<State>, actions: seq<Action>, requested: int, i: nat)
    requires IsRun(run, actions, requested) && i < |run| && run[i].closed
    ensures Busy(run, actions, i) <= Remaining(run[i])
    decreases |actions| - i
  {
    hide Inv, Remaining, Next;
    if i < |actions| {
      RunInv(run, actions, requested, i);
      DrainEnds(run[i], actions[i]);
      StaysClosed(run[i], actions[i]);
      DrainBounded(run, actions, requested, i + 1);
    }
  }

  lemma StaysClosed(s: State, a: Action)
    requires Enabled(s, a) && s.closed
    ensures Next(s, a).closed
  {
  }

  // ---------- the race is real ----------

  /** One producer checks the flag, Close runs to its end, and only then the producer sends. */
  function RaceActions(rec: Record): seq<Action> {
    [CheckClosed(0, rec), SetClosed, SendStop, SeeStop, DrainEmpty, AwaitDone, Send(0)]
  }

  /** The run those actions make. */
  function RaceRun(rec: Record): seq<State> {
    var s0 := State(DEFAULT_BUFFER, [], false, false, false, Working, [], NotCalled, map[], [], [], 0, map[], []);
    var s1 := s0.(inflight := map[0 := rec]);
    var s2 := s1.(closed := true, closer := FlagSet, inflightAtClose := map[0 := rec]);
    var s3 := s2.(stop := true, closer := StopSent);
    var s4 := s3.(worker := Draining);
    var s5 := s4.(worker := Exited, done := true);
    var s6 := s5.(closer := Returned);
    [s0, s1, s2, s3, s4, s5, s6, s6.(inflight := map[], ch := [rec], accepted := [rec], late := [0])]
  }

  /** The race happens. */
  lemma RaceIsRun(rec: Record)
    ensures IsRun(RaceRun(rec), RaceActions(rec), 0)
  {
    var run, a := RaceRun(rec), RaceActions(rec);
    forall i | 0 <= i < |a| ensures Enabled(run[i], a[i]) && run[i + 1] == Next(run[i], a[i]) {
      if i == 6 { assert run[6].inflight - {0} == map[]; }
    }
  }

  /** The same actions lead to the same states. */
  lemma {:induction false} SameActions(run: seq<State>, actions: seq<Action>, other: seq<State>, more: seq<Action>,
                                       requested: int, i: nat)
    requires IsRun(run, actions, requested) && IsRun(other, more, requested) && actions <= more && i < |run|
    ensures i < |other| && other[i] == run[i]
  {
    if i > 0 {
      SameActions(run, actions, other, more, requested, i - 1);
      assert more[i - 1] == actions[i - 1];
    }
  }

  /** The stranded record: in every run that begins with the race, Close has returned and the record is in the
      channel for ever, in no batch. */
  lemma StrandedRecord(rec: Record, run: seq<State>, actions: seq<Action>, i: nat)
    requires IsRun(run, actions, 0) && RaceActions(rec) <= actions && 7 <= i < |run|
    ensures run[i].ch != [] && run[i].ch[0] == rec && run[i].batches == [] && run[7].closer == Returned
  {
    hide Inv, Next, Enabled;
    RaceIsRun(rec);
    SameActions(RaceRun(rec), RaceActions(rec), run, actions, 0, 7);
    StrandedStays(run, actions, 0, 7, i);
  }
}
