/**
 A strict client of the Responses event stream, written without reference to the converter: it checks the
 numbering, opens and closes items, appends deltas to them and compares what it rebuilt with every `.done`
 event and with the final response. `Violated` is a protocol violation. A tool slot also records whether its
 deltas were faithful to the item that finally arrived.
 */
module StreamClient {
  import opened Common
  import Json
  import opened Protocol
  import opened StreamSpec

  datatype Stage = Fresh | Streaming | TextClosed | PartClosed

  datatype Slot =
    | Open(item: Item, stage: Stage, acc: string, faithful: bool)
    | Closed(item: Item, faithful: bool)

  datatype Ending = Running | Finished(response: Final) | Failed(cause: Cause)

  datatype Client = Following(seen: nat, slots: map<nat, Slot>, ending: Ending) | Violated

  const NEW_CLIENT := Following(0, map[], Running)

  /** What makes two tool items the same call of the same tool: everything but id, status and payload. */
  function Identity(item: Item): Item {
    match item
    case FunctionCall(_, _, callID, name, ns, _) => FunctionCall(NoID, Completed, callID, name, ns, "")
    case CustomToolCall(_, _, callID, name, ns, _) => CustomToolCall(NoID, Completed, callID, name, ns, "")
    case ToolSearchCall(_, _, callID, execution, _) => ToolSearchCall(NoID, Completed, callID, execution, Json.Null)
    case _ => item
  }

  predicate Unfilled(item: Item) {
    match item
    case ReasoningItem(_, st, summary) => st == InProgress && summary == []
    case MessageItem(_, st, content) => st == InProgress && content == []
    case FunctionCall(_, st, _, _, _, args) => st == InProgress && args == ""
    case CustomToolCall(_, st, _, _, _, input) => st == InProgress && input == ""
    case ToolSearchCall(_, st, _, _, query) => st == InProgress && query == Json.Obj(map[])
  }

  /** An item may be added at a new index; text items only when nothing is open, tool items when no text item is. */
  predicate MayAdd(slots: map<nat, Slot>, index: nat, item: Item) {
    && index !in slots && Unfilled(item)
    && forall i :: i in slots && slots[i].Open? ==> item.IsTool() && slots[i].item.IsTool()
  }

  /** The payload of a closed tool item is what the deltas added up to, announced by its own `.done` event. */
  predicate PayloadMatches(slot: Slot, item: Item)
    requires slot.Open?
  {
    match item
    case FunctionCall(_, _, _, _, _, args) => slot.stage == PartClosed && args == slot.acc
    case CustomToolCall(_, _, _, _, _, input) => slot.stage == PartClosed && input == slot.acc
    case _ => slot.stage == Fresh && slot.acc == ""
  }

  function Close(slot: Slot, item: Item): Option<Slot>
    requires slot.Open?
  {
    match slot.item
    case ReasoningItem(id, _, _) =>
      if slot.stage == PartClosed && item == ReasoningItem(id, Completed, [slot.acc]) then Some(Closed(item, true))
          else None
    case MessageItem(id, _, _) =>
      if slot.stage == PartClosed && item.MessageItem? && item.id == id && item.status != InProgress
         && item.content == [OutputText(slot.acc)] then Some(Closed(item, true)) else None
    case _ =>
      if item.IsTool() && item.id == slot.item.id && item.status == Completed then
        Some(Closed(item, slot.faithful && Identity(item) == Identity(slot.item) && PayloadMatches(slot, item)))
      else None
  }

  /** An event about an open item: the slot after it, or None when the event is out of place. */
  function Advance(slot: Slot, body: Body): Option<Slot>
    requires slot.Open?
  {
    var it := slot.item;
    match body
    case ReasoningPartAdded(_, id) =>
      if it.ReasoningItem? && it.id == id && slot.stage == Fresh then Some(slot.(stage := Streaming)) else None
    case ReasoningDelta(_, id, d) =>
      if it.ReasoningItem? && it.id == id && slot.stage == Streaming then Some(slot.(acc := slot.acc + d)) else None
    case ReasoningTextDone(_, id, text) =>
      if it.ReasoningItem? && it.id == id && slot.stage == Streaming && text == slot.acc
          then Some(slot.(stage := TextClosed)) else None
    case ReasoningPartDone(_, id, text) =>
      if it.ReasoningItem? && it.id == id && slot.stage == TextClosed && text == slot.acc
          then Some(slot.(stage := PartClosed)) else None
    case ContentPartAdded(_, id) =>
      if it.MessageItem? && it.id == id && slot.stage == Fresh then Some(slot.(stage := Streaming)) else None
    case TextDelta(_, id, d) =>
      if it.MessageItem? && it.id == id && slot.stage == Streaming then Some(slot.(acc := slot.acc + d)) else None
    case TextDone(_, id, text) =>
      if it.MessageItem? && it.id == id && slot.stage == Streaming && text == slot.acc
          then Some(slot.(stage := TextClosed)) else None
    case ContentPartDone(_, id, text) =>
      if it.MessageItem? && it.id == id && slot.stage == TextClosed && text == slot.acc
          then Some(slot.(stage := PartClosed)) else None
    case ArgsDelta(_, id, d) =>
      if it.IsTool() && it.id == id && slot.stage == Fresh then
        Some(slot.(acc := slot.acc + d, faithful := slot.faithful && it.FunctionCall?)) else None
    case ArgsDone(_, id, args) =>
      if it.IsTool() && it.id == id && slot.stage == Fresh then
        Some(slot.(stage := PartClosed, faithful := slot.faithful && it.FunctionCall? && args == slot.acc)) else None
    case CustomDelta(_, id, d) =>
      if it.IsTool() && it.id == id && slot.stage == Fresh then
        Some(slot.(acc := slot.acc + d, faithful := slot.faithful && it.CustomToolCall?)) else None
    case CustomDone(_, id, input) =>
      if it.IsTool() && it.id == id && slot.stage == Fresh then
        Some(slot.(stage := PartClosed, faithful := slot.faithful && it.CustomToolCall? && input == slot.acc)) else None
    case ItemDone(_, item) => Close(slot, item)
    case _ => None
  }

  /** The final response lists exactly the closed items, in index order, with no hole. */
  predicate Rebuilds(slots: map<nat, Slot>, output: seq<Option<Item>>) {
    && (forall i :: i in slots ==> i < |output|)
    && (forall i: nat :: i < |output| ==> i in slots && slots[i].Closed? && output[i] == Some(slots[i].item))
  }

  function Receive(c: Client, body: Body): Client
    requires c.Following?
  {
    if c.ending != Running then Violated
    else
      var c1 := c.(seen := c.seen + 1);
      match body
      case CreatedEvent => if c.seen == 0 then c1 else Violated
      case InProgressEvent => if c.seen == 1 then c1 else Violated
      case FailedEvent(cause) => if c.seen >= 2 then c1.(ending := Failed(cause)) else Violated
      case CompletedEvent(resp) =>
        if c.seen >= 2 && resp.status == Completed && Rebuilds(c.slots, resp.output) then c1.(ending := Finished(resp))
            else Violated
      case IncompleteEvent(resp) =>
        if c.seen >= 2 && resp.status == Incomplete && Rebuilds(c.slots, resp.output)
            then c1.(ending := Finished(resp)) else Violated
      case ItemAdded(i, item) =>
        if c.seen >= 2 && MayAdd(c.slots, i, item) then c1.(slots := c.slots[i := Open(item, Fresh, "", true)])
            else Violated
      case _ =>
        if c.seen >= 2 && body.index in c.slots && c.slots[body.index].Open? then
          match Advance(c.slots[body.index], body)
          case Some(slot) => c1.(slots := c.slots[body.index := slot])
          case None => Violated
        else Violated
  }

  function Observe(c: Client, ev: Event): Client {
    if c.Violated? || ev.sequence != c.seen + 1 then Violated else Receive(c, ev.body)
  }

  /** The client after a whole trace. */
  function Replay(trace: seq<Event>): Client {
    if trace == [] then NEW_CLIENT else Observe(Replay(trace[..|trace| - 1]), trace[|trace| - 1])
  }

  /** A trace in which a strict client finds nothing wrong. */
  predicate Accepts(trace: seq<Event>) { Replay(trace).Following? }

  /** Everything up to a point of an accepted trace is accepted. */
  lemma {:induction false} PrefixAccepted(trace: seq<Event>, n: nat)
    requires n <= |trace| && Accepts(trace)
    ensures Accepts(trace[..n])
    decreases |trace|
  {
    if n < |trace| {
      assert trace[..|trace| - 1][..n] == trace[..n];
      PrefixAccepted(trace[..|trace| - 1], n);
    } else {
      assert trace[..n] == trace;
    }
  }

  /** An accepted trace is numbered 1, 2, 3, ... and opens with created, in_progress. */
  lemma {:induction false} AcceptedNumbering(trace: seq<Event>)
    requires Accepts(trace)
    ensures Replay(trace).seen == |trace|
    ensures forall i :: 0 <= i < |trace| ==> trace[i].sequence == i + 1
    ensures |trace| >= 1 ==> trace[0].body == CreatedEvent
    ensures |trace| >= 2 ==> trace[1].body == InProgressEvent
  {
    if trace != [] {
      PrefixAccepted(trace, |trace| - 1);
      AcceptedNumbering(trace[..|trace| - 1]);
    }
  }

  predicate Terminal(b: Body) { b.CompletedEvent? || b.IncompleteEvent? || b.FailedEvent? }

  /** In an accepted trace only the last event can be terminal. */
  lemma {:induction false} AcceptedEndsOnce(trace: seq<Event>)
    requires Accepts(trace)
    ensures forall i :: 0 <= i < |trace| - 1 ==> !Terminal(trace[i].body)
    ensures Replay(trace).ending == Running <==> (trace == [] || !Terminal(trace[|trace| - 1].body))
  {
    if trace != [] {
      PrefixAccepted(trace, |trace| - 1);
      AcceptedEndsOnce(trace[..|trace| - 1]);
      assert forall i :: 0 <= i < |trace| - 1 ==> trace[..|trace| - 1][i] == trace[i];
    }
  }
}
