/**
 parseInput with its loops and the lists it keeps updating, proved to compute the machine of InputSpec.
 (convert/request.go, convert/request_media.go)
 */
module Input {
  import opened Common
  import opened Json
  import opened Protocol
  import opened Tools
  import opened Media
  import opened InputSpec
  import opened ReasoningSource
  import L = Lru

  method ResponsesPartsToChat(input: seq<InputPart>) returns (content: string, parts: seq<ChatPart>)
    ensures (content, parts) == PartsToChat(input)
  {
    hide IsTextKind, IsImageKind, ImageToChat, JoinedText, AnyImage;
    NoParts();
    var text := "";
    var all: seq<ChatPart> := [];
    var hasImage := false;
    for i := 0 to |input|
      invariant all == ChatParts(input[..i]) && text == JoinedText(all) && (hasImage <==> AnyImage(all))
    {
      var part := input[i];
      assert input[..i + 1][..i] == input[..i];
      if IsTextKind(part.kind) {
        if part.text != "" {
          text := text + part.text;
          Extend(all, TextPart(part.text));
          all := all + [TextPart(part.text)];
        }
      } else if IsImageKind(part.kind) {
        var image := ImageToChat(part.imageURL, part.fileID, part.detail);
        if image.Some? {
          IsImagePart(part.imageURL, part.fileID, part.detail);
          Extend(all, image.value);
          all := all + [image.value];
          hasImage := true;
        }
      }
    }
    assert input[..|input|] == input;
    if !hasImage {
      return text, [];
    }
    return text, all;
  }

  lemma NoParts()
    ensures JoinedText([]) == "" && !AnyImage([])
  {
  }

  lemma Extend(parts: seq<ChatPart>, p: ChatPart)
    ensures JoinedText(parts + [p]) == JoinedText(parts) + if p.TextPart? then p.text else ""
    ensures AnyImage(parts + [p]) <==> AnyImage(parts) || p.ImagePart?
  {
    var all := parts + [p];
    assert all[..|parts|] == parts && all[|parts|] == p;
    assert forall k :: 0 <= k < |parts| ==> all[k] == parts[k];
  }

  lemma IsImagePart(raw: Option<Value>, fileID: string, detail: string)
    ensures var r := ImageToChat(raw, fileID, detail); r.Some? ==> r.value.ImagePart?
  {
  }

  method ReplayedCall(c: Codec, it: InputItem) returns (call: ToolCall)
    requires it.CallIn?
    ensures call == CallOfItem(c, it)
  {
    hide ChatToolArguments, WrapCustomToolInput;
    var name := it.name;
    var callID := it.callID;
    if it.namespace != "" {
      name := JoinToolName(it.namespace, it.name);
    }
    var arguments := ChatToolArguments(c, it.arguments);
    if it.kind == CustomKind {
      arguments := WrapCustomToolInput(c, it.input);
    } else if it.kind == SearchKind {
      name := "tool_search";
      if callID == "" {
        callID := it.id;
      }
      if arguments == "" {
        arguments := "{}";
      }
    }
    call := ToolCall(callID, name, arguments);
  }

  /** The lists parseInput's closures share. */
  class History {
    const codec: Codec
    const src: Option<L.Cache>
    const now: int
    ghost const source: Source
    var out: seq<Msg>
    var pendingReasoning: string
    var toolMsg: Option<nat>
    var pendingMedia: seq<ChatPart>
    var awaiting: set<string>
    var deferred: seq<Msg>

    /** `source` is what the cache shows at the moment of the request. */
    constructor (codec: Codec, src: Option<L.Cache>, now: int, ghost source: Source)
      requires Shows(src, now, source)
      ensures View() == START && Valid() && Shows(src, now, source)
      ensures this.codec == codec && this.src == src && this.now == now && this.source == source
    {
      this.codec, this.src, this.now, this.source := codec, src, now, source;
      out, pendingReasoning, toolMsg := [], "", None;
      pendingMedia, awaiting, deferred := [], {}, [];
    }

    /** The message that takes more calls is the last one. */
    predicate Valid()
      reads this
    {
      toolMsg.Some? ==> out != [] && toolMsg.value == |out| - 1 && out[|out| - 1].CallsMsg?
    }

    ghost function Given(): Setting { Setting(codec, source) }

    function View(): Progress
      reads this
    {
      Progress(out, pendingReasoning, toolMsg.Some?, pendingMedia, awaiting, deferred)
    }

    method FlushPendingMedia()
      requires toolMsg.None?
      modifies this
      ensures toolMsg.None? && View() == FlushMedia(old(View()))
    {
      if pendingMedia == [] {
        return;
      }
      out := out + [MediaMsg(pendingMedia)];
      pendingMedia := [];
    }

    method AppendRegularMessage(msg: Msg)
      requires toolMsg.None?
      modifies this
      ensures View() == AppendRegular(old(View()), msg)
    {
      if awaiting != {} {
        deferred := deferred + [msg];
        return;
      }
      FlushPendingMedia();
      out := out + [msg];
    }

    method FlushDeferredMessages()
      requires toolMsg.None?
      modifies this
      ensures View() == FlushDeferred(old(View()))
    {
      FlushPendingMedia();
      out := out + deferred;
      deferred := [];
    }

    method QueueToolMedia(callID: string, media: seq<ChatPart>)
      modifies this`pendingMedia
      ensures pendingMedia == old(pendingMedia) + if media == [] then [] else [MediaLabel(callID)] + media
    {
      if media == [] {
        return;
      }
      pendingMedia := pendingMedia + [MediaLabel(callID)];
      pendingMedia := pendingMedia + media;
    }

    /** A run's first call opens an assistant message with the cached reasoning, else the pending summary. */
    method OpenToolMessage(callID: string)
      requires toolMsg.None? && Shows(src, now, source)
      modifies this, if src.Some? then {src.value.byCall} else {}
      ensures Valid() && toolMsg.Some?
      ensures var p := old(View());
              var first := CallsMsg(Fallback(LookupCall(source, callID), p.pending), []);
              View() == p.(out := p.out + [first], pending := "", joining := true)
      ensures Shows(src, now, source) && Footprint(src) <= old(Footprint(src))
    {
      hide LookupCall, Shows, Footprint;
      var rc := CallReasoning(src, callID, now, source);
      if rc == "" {
        rc := pendingReasoning;
      }
      out := out + [CallsMsg(rc, [])];
      pendingReasoning := "";
      toolMsg := Some(|out| - 1);
    }

    method OnCall(outputs: set<string>, it: InputItem)
      requires it.CallIn? && Valid() && Shows(src, now, source)
      modifies this, if src.Some? then {src.value.byCall} else {}
      ensures Valid() && View() == StepCall(Given(), outputs, old(View()), it)
      ensures Shows(src, now, source) && Footprint(src) <= old(Footprint(src))
    {
      hide CallOfItem, LookupCall, Shows, Footprint, Fallback, AddCall, StepCall;
      var call := ReplayedCall(codec, it);
      StepCallIs(Given(), outputs, View(), it);
      if toolMsg.None? {
        OpenToolMessage(call.id);
      }
      AppendCall(call);
      if call.id in outputs {
        awaiting := awaiting + {call.id};
      }
    }

    /** The message that takes more calls takes one. */
    method AppendCall(call: ToolCall)
      requires Valid() && toolMsg.Some?
      modifies this`out
      ensures Valid() && out == old(out)[|old(out)| - 1 := AddCall(old(out)[|old(out)| - 1], call)]
    {
      out := out[toolMsg.value := out[toolMsg.value].(calls := out[toolMsg.value].calls + [call])];
    }

    method OnOutput(it: InputItem)
      requires it.OutputIn? && toolMsg.None?
      modifies this
      ensures toolMsg.None? && View() == StepOutput(Given(), old(View()), it)
    {
      hide PlanToolOutputMedia, ExtractText, SearchContent;
      var content := ExtractText(it.output);
      var cleanedOutput: Option<Value> := None;
      var plan := PlanToolOutputMedia(codec, it.output);
      if plan.Some? {
        content := plan.value.content;
        cleanedOutput := Some(plan.value.output);
        QueueToolMedia(it.callID, plan.value.media);
      }
      assert pendingMedia == old(pendingMedia) + MediaOfItem(codec, it);
      if it.search.Some? {
        content := SearchContent(codec, it.callID, it.search.value, cleanedOutput);
      }
      out := out + [ResultMsg(it.callID, content)];
      awaiting := awaiting - {it.callID};
      if awaiting == {} {
        FlushDeferredMessages();
      }
    }

    method OnRegular(it: InputItem)
      requires IsRegular(it) && toolMsg.None? && Shows(src, now, source)
      modifies this, if src.Some? then {src.value.byHash} else {}
      ensures toolMsg.None? && View() == StepRegular(Given(), old(View()), it)
      ensures Shows(src, now, source) && Footprint(src) <= old(Footprint(src))
    {
      hide PartsToChat, ContentToChat, LookupContent, Shows, Footprint;
      if it.PartIn? {
        var role := MapRole(it.role);
        if role == "" {
          role := "user";
        }
        var content, parts := ResponsesPartsToChat([it.part]);
        AppendRegularMessage(RegularMsg(role, content, parts, ""));
      } else {
        var role := MapRole(it.role);
        var (content, parts) := ContentToChat(it.content);
        var reasoning := "";
        if role == "assistant" {
          reasoning := ContentReasoning(src, content, now, source);
          if reasoning == "" {
            reasoning := pendingReasoning;
          }
        }
        var msg := RegularMsg(role, content, parts, reasoning);
        assert msg == RegularOfItem(source, it, old(pendingReasoning));
        if role == "assistant" {
          pendingReasoning := "";
        }
        AppendRegularMessage(msg);
      }
    }

    /** The flushes after the loop. */
    method Conclude()
      modifies this
      ensures out == FlushDeferred(FlushMedia(old(View()))).out
    {
      hide FlushMedia, FlushDeferred;
      JoiningUnused(View());
      toolMsg := None;
      FlushPendingMedia();
      FlushDeferredMessages();
    }

    /** One turn of the loop: what item number `i` does, or why the conversion ends. */
    method OnItem(outputs: set<string>, it: InputItem, i: nat) returns (error: Option<ParseError>)
      requires Valid() && Shows(src, now, source)
      modifies this, if src.Some? then {src.value.byCall, src.value.byHash} else {}
      ensures error == ItemError(it, i)
      ensures error.None? ==> Valid() && View() == Step(Given(), outputs, old(View()), it)
      ensures Shows(src, now, source) && Footprint(src) <= old(Footprint(src))
    {
      hide StepCall, StepOutput, StepRegular, Shows, Footprint;
      if !it.CallIn? {
        toolMsg := None;
      }
      match it {
        case CallIn(_, _, _, _, _, _, _) => OnCall(outputs, it);
        case OutputIn(_, _, _) => OnOutput(it);
        case ReasoningIn(summary) => pendingReasoning := SummaryText(summary);
        case DeclarationsIn =>
        case PartIn(_, _) => OnRegular(it);
        case MessageIn(role, _) =>
          if role == "" {
            return Some(MissingRole(i));
          }
          OnRegular(it);
        case UnknownIn(itemType) =>
          return Some(Unsupported(itemType, i));
      }
      return None;
    }
  }

  method CollectOutputIDs(items: seq<InputItem>) returns (ids: set<string>)
    ensures ids == OutputIDs(items)
  {
    ids := {};
    for i := 0 to |items|
      invariant forall c :: c in ids <==>
                  c != "" && exists k :: 0 <= k < i && items[k].OutputIn? && items[k].callID == c
    {
      if items[i].OutputIn? && items[i].callID != "" {
        ids := ids + {items[i].callID};
      }
    }
  }

  /** parseInput, reading the cache as it goes: the messages are those for the cache as it was at the start, and every
      later lookup at the same moment still finds the same. */
  method ParseInput(codec: Codec, src: Option<L.Cache>, now: int, input: Input)
    returns (r: Result<seq<Msg>, ParseError>)
    requires src.Some? ==> src.value.Valid()
    modifies if src.Some? then {src.value.byCall, src.value.byHash} else {}
    ensures r == Parsed(Setting(codec, old(Shown(src, now))), input)
    ensures match input
            case Absent => r == Ok([])
            case TextInput(text) => r == Ok([RegularMsg("user", text, [], "")])
            case Undecodable => r == Err(NotInput)
            case ItemsInput(_) => true
    ensures Shows(src, now, old(Shown(src, now))) && Footprint(src) <= old(Footprint(src))
  {
    hide Shows, Shown, Footprint;
    ShownShows(src, now);
    match input {
      case Absent => return Ok([]);
      case TextInput(text) => return Ok([RegularMsg("user", text, [], "")]);
      case Undecodable => return Err(NotInput);
      case ItemsInput(items) => r := ParseItems(codec, src, now, items);
    }
  }

  method ParseItems(codec: Codec, src: Option<L.Cache>, now: int, items: seq<InputItem>)
    returns (r: Result<seq<Msg>, ParseError>)
    requires src.Some? ==> src.value.Valid()
    modifies if src.Some? then {src.value.byCall, src.value.byHash} else {}
    ensures r == Parsed(Setting(codec, old(Shown(src, now))), ItemsInput(items))
    ensures Shows(src, now, old(Shown(src, now))) && Footprint(src) <= old(Footprint(src))
  {
    hide After, Step, OutputIDs, FlushMedia, FlushDeferred, FirstError, ItemError, Shows, Shown, Footprint;
    ghost var source := Shown(src, now);
    ghost var s := Setting(codec, source);
    ShownShows(src, now);
    var outputs := CollectOutputIDs(items);
    var h := new History(codec, src, now, source);
    NoItemYet(s, items);
    for i := 0 to |items|
      invariant h.Valid() && h.View() == After(s, items, i)
      invariant FirstError(items, 0) == FirstError(items, i)
      invariant Shows(src, now, source) && Footprint(src) <= old(Footprint(src))
    {
      OneMoreItem(s, items, i);
      var error := h.OnItem(outputs, items[i], i);
      if error.Some? {
        return Err(error.value);
      }
    }
    h.Conclude();
    return Ok(h.out);
  }

  lemma NoItemYet(s: Setting, items: seq<InputItem>)
    ensures After(s, items, 0) == START && FirstError(items, |items|).None?
  {
  }

  lemma OneMoreItem(s: Setting, items: seq<InputItem>, i: nat)
    requires i < |items|
    ensures After(s, items, i + 1) == Step(s, OutputIDs(items), After(s, items, i), items[i])
    ensures FirstError(items, i) == if ItemError(items[i], i).Some? then ItemError(items[i], i)
                                    else FirstError(items, i + 1)
  {
  }

  /** A call step as done in place: open a message if none takes more calls, then add the call to the last one. */
  lemma StepCallIs(s: Setting, outputs: set<string>, p: Progress, it: InputItem)
    requires it.CallIn? && (p.joining ==> p.out != [])
    ensures var call := CallOfItem(s.codec, it);
            var rc := Fallback(LookupCall(s.source, call.id), p.pending);
            var q := if p.joining then p else p.(out := p.out + [CallsMsg(rc, [])], pending := "", joining := true);
            var last := |q.out| - 1;
            StepCall(s, outputs, p, it)
            == q.(out := q.out[last := AddCall(q.out[last], call)],
                  awaiting := if call.id in outputs then q.awaiting + {call.id} else q.awaiting)
  {
    hide CallOfItem, LookupCall, Fallback;
    if !p.joining {
      var call := CallOfItem(s.codec, it);
      var rc := Fallback(LookupCall(s.source, call.id), p.pending);
      assert [] + [call] == [call];
      assert (p.out + [CallsMsg(rc, [])])[|p.out| := CallsMsg(rc, [call])] == p.out + [CallsMsg(rc, [call])];
    }
  }

  /** The final flush does not look at the message being extended. */
  lemma JoiningUnused(p: Progress)
    ensures FlushDeferred(FlushMedia(p.(joining := false))).out == FlushDeferred(FlushMedia(p)).out
  {
  }
}
