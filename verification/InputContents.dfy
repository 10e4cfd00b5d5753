/**
 What the messages of a converted history hold, item by item: texts, roles, images, tool results and calls, read off
 the input. (convert/request.go parseInput, extractText, mapRole, summaryText; convert/request_media.go
 responsesContentToChat, responsesImageToChat, planToolOutputMedia)
 */
module InputContents {
  import opened Common
  import opened Json
  import opened Protocol
  import opened Tools
  import opened Media
  import opened MediaPaths
  import opened ImageShapes
  import opened InputSpec

  // ---------- content arrays ----------

  /** The text of an optional field: absent and null stand for "". */
  predicate FieldReads(f: Fields, key: string, text: string) {
    if key in f && f[key].Str? then text == f[key].s else text == "" && (key in f ==> f[key].Null?)
  }

  /** The entry of a content array that a JSON value is; null is an entry without anything in it. */
  predicate Reads(v: Value, p: InputPart) {
    match v
    case Null => p == InputPart("", "", None, "", "")
    case Obj(f) =>
      && FieldReads(f, "type", p.kind) && FieldReads(f, "text", p.text) && FieldReads(f, "file_id", p.fileID)
      && FieldReads(f, "detail", p.detail)
      && p.imageURL == if "image_url" in f then Some(f["image_url"]) else None
    case _ => false
  }

  predicate AllRead(vs: seq<Value>, ps: seq<InputPart>) {
    |vs| == |ps| && forall i :: 0 <= i < |vs| ==> Reads(vs[i], ps[i])
  }

  lemma DecodedFields(f: Fields, key: string)
    ensures FieldText(f, key).Some? ==> FieldReads(f, key, FieldText(f, key).value)
    ensures FieldText(f, key).None? ==> forall text :: !FieldReads(f, key, text)
  {
  }

  lemma PartReads(v: Value)
    ensures DecodePart(v).Some? ==> Reads(v, DecodePart(v).value)
    ensures DecodePart(v).None? ==> forall p :: !Reads(v, p)
  {
    hide FieldText, FieldReads;
    if v.Obj? {
      DecodedFields(v.fields, "type");
      DecodedFields(v.fields, "text");
      DecodedFields(v.fields, "file_id");
      DecodedFields(v.fields, "detail");
    }
  }

  lemma {:induction false} PartsRead(vs: seq<Value>)
    ensures DecodeParts(vs).Some? ==> AllRead(vs, DecodeParts(vs).value)
    ensures DecodeParts(vs).None? ==> forall ps :: !AllRead(vs, ps)
  {
    hide DecodePart, Reads;
    if vs != [] {
      PartReads(vs[0]);
      PartsRead(vs[1..]);
      forall ps | AllRead(vs, ps) ensures DecodeParts(vs).Some? {
        assert Reads(vs[0], ps[0]);
        RestReads(vs, ps);
      }
    }
  }

  lemma RestReads(vs: seq<Value>, ps: seq<InputPart>)
    requires vs != [] && AllRead(vs, ps)
    ensures AllRead(vs[1..], ps[1..])
  {
    hide Reads;
    forall i | 0 <= i < |vs| - 1 ensures Reads(vs[1..][i], ps[1..][i]) {
      var next := i + 1;
      assert Reads(vs[next], ps[next]);
    }
  }

  /** The texts of some entries one after the other; of all of them, or only of those that are texts by their type. */
  function Texts(ps: seq<InputPart>, all: bool): string {
    if ps == [] then ""
    else
      var last := ps[|ps| - 1];
      Texts(ps[..|ps| - 1], all) + if all || IsTextEntry(last) then last.text else ""
  }

  predicate IsTextEntry(p: InputPart) {
    p.kind == "" || p.kind == "text" || p.kind == "input_text" || p.kind == "output_text"
  }

  lemma {:induction false} TextsFromFront(ps: seq<InputPart>)
    requires ps != []
    ensures Texts(ps, true) == ps[0].text + Texts(ps[1..], true)
  {
    if |ps| == 1 {
      assert ps[..0] == [] && ps[1..] == [];
    } else {
      var n := |ps| - 1;
      TextsFromFront(ps[..n]);
      assert ps[..n][1..] == ps[1..][..n - 1] && ps[1..][n - 1] == ps[n];
    }
  }

  lemma {:induction false} AllTextsIs(ps: seq<InputPart>)
    ensures AllTexts(ps) == Texts(ps, true)
  {
    if ps != [] {
      AllTextsIs(ps[1..]);
      TextsFromFront(ps);
    }
  }

  // ---------- images in messages ----------

  predicate IsImageEntry(p: InputPart) { p.kind == "input_image" || p.kind == "image_url" }

  /** The object an image_url holds, when its fields have the right types. */
  ghost predicate HoldsImageObject(p: InputPart) {
    p.imageURL.Some? && p.imageURL.value.Obj? && exists link :: ReadsLink(p.imageURL.value.fields, link)
  }

  datatype Link = Link(url: string, fileID: string, detail: string)

  predicate ReadsLink(f: Fields, link: Link) {
    FieldReads(f, "url", link.url) && FieldReads(f, "file_id", link.fileID) && FieldReads(f, "detail", link.detail)
  }

  /** What the image_url of an entry says: a text is the link, an object has up to three fields, else nothing. */
  ghost predicate LinkOf(p: InputPart, link: Link) {
    if p.imageURL.Some? && p.imageURL.value.Str? then link == Link(p.imageURL.value.s, "", "")
    else if HoldsImageObject(p) then ReadsLink(p.imageURL.value.fields, link)
    else link == Link("", "", "")
  }

  /** The detail of the entry itself when it has one, else that of its link. */
  ghost predicate DetailOf(own: string, linked: string, detail: string) {
    if DetailMeans(own, "") then DetailMeans(linked, detail) else DetailMeans(own, detail)
  }

  /** The image of an entry: its link as it stands, its file id or else the link's, and the detail. */
  ghost predicate ImageEntry(p: InputPart, image: ChatPart) {
    && image.ImagePart? && !(AllSpace(image.url) && AllSpace(image.fileID))
    && exists link :: LinkOf(p, link) && ImageWith(p, link, image)
  }

  ghost predicate ImageWith(p: InputPart, link: Link, image: ChatPart) {
    && image.ImagePart? && image.url == link.url && image.fileID == (if p.fileID == "" then link.fileID else p.fileID)
    && DetailOf(p.detail, link.detail, image.detail)
  }

  /** What an entry contributes: a text entry its text unless that is empty, an image entry its image. */
  ghost predicate Contributes(p: InputPart, part: ChatPart) {
    if IsTextEntry(p) then p.text != "" && part == TextPart(p.text) else IsImageEntry(p) && ImageEntry(p, part)
  }

  ghost predicate HasPart(p: InputPart) { exists part :: Contributes(p, part) }

  lemma LinkReads(p: InputPart) returns (link: Link)
    ensures LinkOf(p, link) && forall other :: LinkOf(p, other) ==> other == link
    ensures ImageToChat(p.imageURL, p.fileID, p.detail)
         == LinkedImage(link.url, if p.fileID == "" then link.fileID else p.fileID,
                        if NormalizeDetail(p.detail) == "" then NormalizeDetail(link.detail)
                        else NormalizeDetail(p.detail))
  {
    hide FieldText, FieldReads, TrimSpace, NormalizeDetail;
    NoDetail();
    link := Link("", "", "");
    match p.imageURL {
      case Some(Str(s)) => link := Link(s, "", "");
      case Some(Obj(f)) =>
        DecodedFields(f, "url");
        DecodedFields(f, "file_id");
        DecodedFields(f, "detail");
        var url, file, det := FieldText(f, "url"), FieldText(f, "file_id"), FieldText(f, "detail");
        if url.Some? && file.Some? && det.Some? {
          link := Link(url.value, file.value, det.value);
          OneLink(f, link);
          assert ReadsLink(f, link);
        }
      case _ =>
    }
  }

  lemma OneLink(f: Fields, link: Link)
    requires ReadsLink(f, link)
    ensures forall other :: ReadsLink(f, other) ==> other == link
  {
  }

  function LinkedImage(url: string, fileID: string, detail: string): Option<ChatPart> {
    if TrimSpace(url) == "" && TrimSpace(fileID) == "" then None else Some(ImagePart(url, fileID, detail))
  }

  lemma NoDetail()
    ensures NormalizeDetail("") == ""
  {
    TrimsToNothing("");
  }

  lemma DetailsAre(own: string, linked: string)
    ensures forall d :: DetailOf(own, linked, d) <==>
              d == if NormalizeDetail(own) == "" then NormalizeDetail(linked) else NormalizeDetail(own)
  {
    hide TrimSpace, NormalizeDetail, Spells;
    DetailIs(own);
    DetailIs(linked);
  }

  lemma ImageIs(p: InputPart)
    ensures forall part :: ImageEntry(p, part) <==> ImageToChat(p.imageURL, p.fileID, p.detail) == Some(part)
  {
    hide ImageToChat, NormalizeDetail, LinkOf, DetailOf, TrimSpace;
    var link := LinkReads(p);
    DetailsAre(p.detail, link.detail);
    var file := if p.fileID == "" then link.fileID else p.fileID;
    TrimsToNothing(link.url);
    TrimsToNothing(file);
    forall part ensures ImageEntry(p, part) <==> ImageToChat(p.imageURL, p.fileID, p.detail) == Some(part) {
      if ImageToChat(p.imageURL, p.fileID, p.detail) == Some(part) { assert ImageWith(p, link, part); }
    }
  }

  lemma ContributionIs(p: InputPart)
    ensures forall part :: Contributes(p, part) <==> PartToChat(p) == Some(part)
  {
    hide ImageToChat, ImageEntry;
    ImageIs(p);
  }

  lemma HasPartIs(p: InputPart)
    ensures HasPart(p) <==> PartToChat(p).Some?
    ensures HasPart(p) ==> Contributes(p, PartToChat(p).value)
  {
    hide PartToChat, Contributes;
    ContributionIs(p);
    if PartToChat(p).Some? { assert Contributes(p, PartToChat(p).value); }
  }

  // ---------- content ----------

  /** `at` are the places of the wanted elements, in order. */
  ghost predicate PlacesOf<T(!new)>(at: seq<nat>, xs: seq<T>, want: T -> bool) {
    && (forall i, j :: 0 <= i < j < |at| ==> at[i] < at[j])
    && (forall k: nat :: k in at <==> k < |xs| && want(xs[k]))
  }

  lemma PlacesStep<T(!new)>(at: seq<nat>, xs: seq<T>, x: T, want: T -> bool)
    requires PlacesOf(at, xs, want)
    ensures PlacesOf(if want(x) then at + [|xs|] else at, xs + [x], want)
  {
    forall k: nat ensures k in (at + [|xs|]) <==> k in at || k == |xs| {
      if k == |xs| { assert (at + [|xs|])[|at|] == k; }
    }
    forall i | 0 <= i < |at| ensures at[i] < |xs| { assert at[i] in at; }
  }

  /** Each of the parts is what the entry at its place contributes, and no entry is left out. */
  ghost predicate PartsShown(ps: seq<InputPart>, parts: seq<ChatPart>) {
    exists at: seq<nat> :: PartsFrom(ps, parts, at)
  }

  ghost predicate PartsFrom(ps: seq<InputPart>, parts: seq<ChatPart>, at: seq<nat>) {
    && |at| == |parts| && PlacesOf(at, ps, HasPart)
    && forall i :: 0 <= i < |at| ==> at[i] < |ps| && Contributes(ps[at[i]], parts[i])
  }

  lemma {:induction false} PartsPlaced(ps: seq<InputPart>) returns (at: seq<nat>)
    ensures PartsFrom(ps, ChatParts(ps), at)
  {
    hide PartToChat, Contributes, HasPart, PartsFrom;
    if ps == [] {
      at := [];
      NoParts();
    } else {
      var n := |ps| - 1;
      var front := PartsPlaced(ps[..n]);
      at := if HasPart(ps[n]) then front + [n] else front;
      assert ps == ps[..n] + [ps[n]];
      HasPartIs(ps[n]);
      OneMorePart(ps[..n], ChatParts(ps[..n]), front, ps[n]);
      ChatPartsStep(ps[..n], ps[n]);
    }
  }

  lemma ChatPartsStep(ps: seq<InputPart>, p: InputPart)
    ensures ChatParts(ps + [p]) == ChatParts(ps) + if PartToChat(p).Some? then [PartToChat(p).value] else []
    ensures PartToChat(p).None? ==> ChatParts(ps + [p]) == ChatParts(ps)
    ensures Texts(ps + [p], false) == Texts(ps, false) + if IsTextEntry(p) then p.text else ""
  {
    assert (ps + [p])[..|ps|] == ps;
  }

  lemma NoParts()
    ensures PartsFrom([], [], [])
  {
  }

  lemma OneMorePart(ps: seq<InputPart>, parts: seq<ChatPart>, at: seq<nat>, p: InputPart)
    requires PartsFrom(ps, parts, at)
    ensures !HasPart(p) ==> PartsFrom(ps + [p], parts, at)
    ensures forall part :: Contributes(p, part) ==> PartsFrom(ps + [p], parts + [part], at + [|ps|])
  {
    hide Contributes, PlacesOf;
    PlacesStep(at, ps, p, HasPart);
  }

  /** The text of some entries, and the parts themselves when there is an image among them. */
  ghost predicate EntriesSay(ps: seq<InputPart>, content: string, parts: seq<ChatPart>) {
    && content == Texts(ps, false)
    && if exists i :: 0 <= i < |ps| && GivesImage(ps[i]) then PartsShown(ps, parts) else parts == []
  }

  ghost predicate GivesImage(p: InputPart) { exists image :: IsImageEntry(p) && ImageEntry(p, image) }

  lemma {:induction false} JoinedIs(ps: seq<InputPart>)
    ensures JoinedText(ChatParts(ps)) == Texts(ps, false)
    ensures AnyImage(ChatParts(ps)) <==> exists i :: 0 <= i < |ps| && GivesImage(ps[i])
  {
    hide PartToChat, GivesImage, IsTextEntry, AnyImage, ChatParts, Texts;
    if ps == [] {
      NoImage();
    } else {
      var n := |ps| - 1;
      JoinedIs(ps[..n]);
      GivesImageIs(ps[n]);
      TextPartIs(ps[n]);
      ChatPartsStep(ps[..n], ps[n]);
      assert ps == ps[..n] + [ps[n]];
      var before := ChatParts(ps[..n]);
      if PartToChat(ps[n]).Some? { JoinOne(before, PartToChat(ps[n]).value); }
      assert forall i :: 0 <= i < n ==> ps[..n][i] == ps[i];
    }
  }

  lemma NoImage()
    ensures JoinedText(ChatParts([])) == Texts([], false) && !AnyImage(ChatParts([]))
  {
  }

  lemma JoinOne(parts: seq<ChatPart>, part: ChatPart)
    ensures JoinedText(parts + [part]) == JoinedText(parts) + if part.TextPart? then part.text else ""
    ensures AnyImage(parts + [part]) <==> AnyImage(parts) || part.ImagePart?
  {
    var all := parts + [part];
    assert all[..|parts|] == parts && all[|parts|] == part;
    if AnyImage(parts) {
      var i :| 0 <= i < |parts| && parts[i].ImagePart?;
      assert all[i].ImagePart?;
    }
    if AnyImage(all) {
      var i :| 0 <= i < |all| && all[i].ImagePart?;
      if i < |parts| { assert parts[i].ImagePart?; }
    }
  }

  lemma KindsAre(p: InputPart)
    ensures IsTextKind(p.kind) <==> IsTextEntry(p)
    ensures IsImageKind(p.kind) <==> IsImageEntry(p)
    ensures IsImageEntry(p) ==> !IsTextEntry(p)
  {
    if p.kind == "input_image" { assert p.kind[6] == 'i' && "input_text"[6] == 't'; }
  }

  lemma TextPartIs(p: InputPart)
    ensures IsTextEntry(p) ==> PartToChat(p) == if p.text == "" then None else Some(TextPart(p.text))
    ensures !IsTextEntry(p) && PartToChat(p).Some? ==> PartToChat(p).value.ImagePart?
  {
    hide IsTextKind, IsTextEntry, TrimSpace, NormalizeDetail, FieldText;
    KindsAre(p);
  }

  lemma GivesImageIs(p: InputPart)
    ensures GivesImage(p) <==> PartToChat(p).Some? && PartToChat(p).value.ImagePart?
  {
    hide LinkOf, ImageWith, ImageToChat, IsTextKind, IsTextEntry, IsImageKind, IsImageEntry;
    KindsAre(p);
    ImageIs(p);
  }

  lemma EntriesAre(ps: seq<InputPart>)
    ensures EntriesSay(ps, PartsToChat(ps).0, PartsToChat(ps).1)
  {
    hide ChatParts, GivesImage, PartsFrom, JoinedText, AnyImage;
    JoinedIs(ps);
    var at := PartsPlaced(ps);
  }

  /** The content of a message: a text is itself, an array what its entries say, anything else nothing. */
  ghost predicate ContentSays(raw: Option<Value>, content: string, parts: seq<ChatPart>) {
    match raw
    case Some(Str(s)) => content == s && parts == []
    case Some(Arr(vs)) =>
      if exists ps :: AllRead(vs, ps) then exists ps :: AllRead(vs, ps) && EntriesSay(ps, content, parts)
      else content == "" && parts == []
    case _ => content == "" && parts == []
  }

  lemma ContentIs(raw: Option<Value>)
    ensures ContentSays(raw, ContentToChat(raw).0, ContentToChat(raw).1)
  {
    hide DecodeParts, PartsToChat, AllRead, EntriesSay;
    if raw.Some? && raw.value.Arr? {
      var vs := raw.value.items;
      PartsRead(vs);
      if DecodeParts(vs).Some? {
        EntriesAre(DecodeParts(vs).value);
      }
    }
  }

  /** The text of a plain tool output: a text is itself, an array the texts of all its entries. */
  ghost predicate OutputText(raw: Option<Value>, text: string) {
    match raw
    case Some(Str(s)) => text == s
    case Some(Arr(vs)) =>
      if exists ps :: AllRead(vs, ps) then exists ps :: AllRead(vs, ps) && text == Texts(ps, true) else text == ""
    case _ => text == ""
  }

  lemma OutputTextIs(raw: Option<Value>)
    ensures OutputText(raw, ExtractText(raw))
  {
    hide DecodeParts, AllTexts, AllRead, Texts;
    if raw.Some? && raw.value.Arr? {
      var vs := raw.value.items;
      PartsRead(vs);
      if DecodeParts(vs).Some? { AllTextsIs(DecodeParts(vs).value); }
    }
  }

  // ---------- regular messages ----------

  /** The summary texts of a reasoning item one after the other. */
  function SummaryOf(summary: seq<string>): string {
    if summary == [] then "" else SummaryOf(summary[..|summary| - 1]) + summary[|summary| - 1]
  }

  lemma {:induction false} SummaryLast(summary: seq<string>, last: string)
    ensures SummaryText(summary + [last]) == SummaryText(summary) + last
  {
    var all := summary + [last];
    if summary == [] {
      assert all[1..] == [];
    } else {
      assert all[1..] == summary[1..] + [last];
      SummaryLast(summary[1..], last);
      assert all[0] == summary[0];
      assert summary[0] + (SummaryText(summary[1..]) + last) == summary[0] + SummaryText(summary[1..]) + last;
    }
  }

  lemma {:induction false} SummaryIs(summary: seq<string>)
    ensures SummaryText(summary) == SummaryOf(summary)
  {
    if summary != [] {
      var n := |summary| - 1;
      SummaryIs(summary[..n]);
      SummaryLast(summary[..n], summary[n]);
      assert summary == summary[..n] + [summary[n]];
    }
  }

  /** The item's role, a developer's being the user's, and a content part without one too. */
  predicate RoleSays(it: InputItem, role: string)
    requires IsRegular(it)
  {
    if it.role == "developer" || (it.PartIn? && it.role == "") then role == "user" else role == it.role
  }

  /** The cached reasoning of an assistant's text, else the replayed summary; other messages have none. */
  predicate ReasoningSays(s: Source, it: InputItem, content: string, summary: string, reasoning: string)
    requires IsRegular(it)
  {
    if it.PartIn? || it.role != "assistant" then reasoning == ""
    else if s.Source? && content != "" && s.byContent(content) != "" then reasoning == s.byContent(content)
    else reasoning == summary
  }

  /** The message of a regular item, with the summary replayed before it. */
  ghost predicate MessageSays(s: Source, it: InputItem, summary: string, m: Msg)
    requires IsRegular(it)
  {
    && m.RegularMsg? && RoleSays(it, m.role) && ReasoningSays(s, it, m.content, summary, m.reasoning)
    && if it.PartIn? then EntriesSay([it.part], m.content, m.parts) else ContentSays(it.content, m.content, m.parts)
  }

  lemma MessageIs(s: Source, it: InputItem, pending: string)
    requires IsRegular(it)
    ensures MessageSays(s, it, pending, RegularOfItem(s, it, pending))
  {
    hide ContentSays, EntriesSay, PartsToChat, ContentToChat;
    if it.PartIn? { EntriesAre([it.part]); } else { ContentIs(it.content); }
  }

  // ---------- tool outputs ----------

  /** The value whose images are moved: JSON text in an output that is a text is looked into. */
  ghost predicate Scans(c: Codec, raw: Option<Value>, v: Value) {
    if raw.Some? && raw.value.Str? && !HasShape(raw.value) then c.decode(raw.value.s) == Some(v) else raw == Some(v)
  }

  /** There is an image somewhere in the value. */
  ghost predicate HoldsImage(c: Codec, v: Value) { exists p :: LeadsToShape(c, v, p) }

  ghost predicate OutputHoldsImage(c: Codec, raw: Option<Value>) { exists v :: Scans(c, raw, v) && HoldsImage(c, v) }

  /** The images of a value, each once, in the order they are met. */
  ghost predicate Gathered(c: Codec, v: Value, media: seq<ChatPart>) {
    exists ps: seq<Path> :: GatheredFrom(c, v, media, ps)
  }

  /** What the text of an output with images becomes: printed without them, or the notice when it was an image. */
  ghost predicate CleanedText(c: Codec, raw: Option<Value>, text: string) {
    if raw.Some? && raw.value.Str? && HasShape(raw.value) then Notice(raw.value, Str(text))
    else exists v :: Scans(c, raw, v) && text == c.encode(Strip(c, v, 0).value)
  }

  /** The cleaned output as a value: text stays text. */
  ghost predicate CleanedOutput(c: Codec, raw: Option<Value>, w: Value) {
    if raw.Some? && raw.value.Str? then w.Str? && CleanedText(c, raw, w.s)
    else exists v :: Scans(c, raw, v) && w == Strip(c, v, 0).value
  }

  ghost predicate PlanSays(c: Codec, raw: Option<Value>, plan: Plan) {
    && CleanedText(c, raw, plan.content) && CleanedOutput(c, raw, plan.output)
    && exists v :: Scans(c, raw, v) && Gathered(c, v, plan.media) && plan.media != []
  }

  lemma GatheredIs(c: Codec, v: Value)
    ensures Gathered(c, v, Strip(c, v, 0).media)
    ensures HoldsImage(c, v) <==> Strip(c, v, 0).count != 0
    ensures |Strip(c, v, 0).media| == Strip(c, v, 0).count
  {
    hide Strip, Paths, InOrder, LeadsToShape, Pictured, At;
    MediaGathered(c, v);
    StripCounts(c, v, 0);
    var ps := Paths(c, v, 0);
    if p :| LeadsToShape(c, v, p) { assert p in ps; }
    if ps != [] { assert ps[0] in ps; }
  }

  lemma PlanOf(c: Codec, raw: Option<Value>, v: Value)
    requires raw.Some? && Scans(c, raw, v)
    ensures PlanToolOutputMedia(c, raw).Some? <==> HoldsImage(c, v)
    ensures PlanToolOutputMedia(c, raw).Some? ==> PlanSays(c, raw, PlanToolOutputMedia(c, raw).value)
  {
    hide HasShape, HoldsImage, Gathered, ImageFromDataURL, ImageFromObject, StripItems, StripText, Notice;
    GatheredIs(c, v);
    ImagesHaveShape(raw.value);
    if raw.value.Str? && HasShape(raw.value) {
      MarkerIsNotice(raw.value);
      ImageStripped(c, raw.value.s);
    }
  }

  lemma ImageStripped(c: Codec, s: string)
    requires IsImage(Str(s))
    ensures Strip(c, Str(s), 0) == Stripped(Str(MARKER), [ImageFromDataURL(s).value], 1)
  {
    hide ImageFromDataURL;
  }

  lemma PlanIs(c: Codec, raw: Option<Value>)
    ensures PlanToolOutputMedia(c, raw).Some? <==> OutputHoldsImage(c, raw)
    ensures PlanToolOutputMedia(c, raw).Some? ==> PlanSays(c, raw, PlanToolOutputMedia(c, raw).value)
  {
    hide HasShape, HoldsImage, PlanSays, Strip, ImageFromDataURL;
    if raw.Some? {
      ImagesHaveShape(raw.value);
      if !raw.value.Str? || HasShape(raw.value) {
        PlanOf(c, raw, raw.value);
      } else if c.decode(raw.value.s).Some? {
        PlanOf(c, raw, c.decode(raw.value.s).value);
      }
    }
  }

  /** The JSON text a tool_search output is replayed as: the item's fields, optional ones only when given. */
  ghost predicate SearchSays(c: Codec, it: InputItem, text: string)
    requires it.OutputIn? && it.search.Some?
  {
    exists f: Fields :: text == c.encode(Obj(f)) && SearchFields(c, it, f)
  }

  ghost predicate SearchFields(c: Codec, it: InputItem, f: Fields)
    requires it.OutputIn? && it.search.Some?
  {
    var info := it.search.value;
    && f.Keys <= {"type", "call_id", "tools", "id", "execution", "status", "output"}
    && "type" in f && f["type"] == Str("tool_search_output")
    && "call_id" in f && f["call_id"] == Str(it.callID)
    && "tools" in f && f["tools"] == info.tools
    && OptionalField(f, "id", info.id) && OptionalField(f, "execution", info.execution)
    && OptionalField(f, "status", info.status)
    && ("output" in f <==> OutputHoldsImage(c, it.output))
    && ("output" in f ==> CleanedOutput(c, it.output, f["output"]))
  }

  predicate OptionalField(f: Fields, key: string, text: string) {
    (key in f <==> text != "") && (key in f ==> f[key] == Str(text))
  }

  lemma SearchObjectHas(callID: string, info: SearchInfo, output: Option<Value>)
    ensures var f := SearchObject(callID, info, output);
            && f.Keys <= {"type", "call_id", "tools", "id", "execution", "status", "output"}
            && "type" in f && f["type"] == Str("tool_search_output")
            && "call_id" in f && f["call_id"] == Str(callID)
            && "tools" in f && f["tools"] == info.tools
            && OptionalField(f, "id", info.id) && OptionalField(f, "execution", info.execution)
            && OptionalField(f, "status", info.status)
            && ("output" in f <==> output.Some?) && (output.Some? ==> f["output"] == output.value)
  {
  }

  lemma SearchIs(c: Codec, it: InputItem, output: Option<Value>)
    requires it.OutputIn? && it.search.Some?
    requires output.Some? <==> OutputHoldsImage(c, it.output)
    requires output.Some? ==> CleanedOutput(c, it.output, output.value)
    ensures SearchSays(c, it, SearchContent(c, it.callID, it.search.value, output))
  {
    hide CleanedOutput, OutputHoldsImage, OptionalField, SearchObject;
    SearchObjectHas(it.callID, it.search.value, output);
    var f := SearchObject(it.callID, it.search.value, output);
    assert SearchFields(c, it, f);
  }

  /** The tool message of an output: the item's call id, and its text, cleaned text or replayed search. */
  ghost predicate ResultSays(c: Codec, it: InputItem, m: Msg)
    requires it.OutputIn?
  {
    && m.ResultMsg? && m.callID == it.callID
    && if it.search.Some? then SearchSays(c, it, m.content)
       else if OutputHoldsImage(c, it.output) then CleanedText(c, it.output, m.content)
       else OutputText(it.output, m.content)
  }

  lemma ResultIs(c: Codec, it: InputItem)
    requires it.OutputIn?
    ensures ResultSays(c, it, ResultOfItem(c, it))
  {
    hide PlanToolOutputMedia, ExtractText, SearchContent, CleanedText, CleanedOutput, OutputHoldsImage,
         OutputText, SearchSays, Gathered;
    PlanIs(c, it.output);
    OutputTextIs(it.output);
    var plan := PlanToolOutputMedia(c, it.output);
    if it.search.Some? { SearchIs(c, it, if plan.Some? then Some(plan.value.output) else None); }
  }

  /** The parts an output contributes to the user message that follows: none, or a label and its images. */
  ghost predicate MediaSays(c: Codec, it: InputItem, parts: seq<ChatPart>)
    requires it.OutputIn?
  {
    if !OutputHoldsImage(c, it.output) then parts == []
    else
      && |parts| > 1 && parts[0] == TextPart("[apid: media output of tool call " + it.callID + "]")
      && exists v :: Scans(c, it.output, v) && Gathered(c, v, parts[1..])
  }

  lemma MediaIs(c: Codec, it: InputItem)
    requires it.OutputIn?
    ensures MediaSays(c, it, MediaOfItem(c, it))
  {
    hide PlanToolOutputMedia, CleanedText, CleanedOutput, OutputHoldsImage, Gathered, Scans;
    PlanIs(c, it.output);
    var plan := PlanToolOutputMedia(c, it.output);
    if plan.Some? { assert MediaOfItem(c, it)[1..] == plan.value.media; }
  }

  // ---------- calls ----------

  /** The argument text of a call: none for a missing field and null, a text as it is, other JSON printed. */
  predicate ArgumentsSay(c: Codec, raw: Option<Value>, text: string) {
    if raw.None? || raw.value.Null? then text == ""
    else if raw.value.Str? then text == raw.value.s
    else text == c.encode(raw.value)
  }

  /** The call of an item: its id, its name with the namespace in front, and its arguments as each kind carries them. */
  ghost predicate CallSays(c: Codec, it: InputItem, call: ToolCall)
    requires it.CallIn?
  {
    if it.kind.SearchKind? then
      && call.name == "tool_search" && call.id == (if it.callID != "" then it.callID else it.id)
      && exists text :: ArgumentsSay(c, it.arguments, text) && call.arguments == if text == "" then "{}" else text
    else
      && call.id == it.callID && call.name == (if it.namespace == "" then it.name else it.namespace + "__" + it.name)
      && if it.kind.CustomKind? then call.arguments == c.encode(Obj(map["input" := Str(it.input)]))
         else ArgumentsSay(c, it.arguments, call.arguments)
  }

  lemma CallIs(c: Codec, it: InputItem)
    requires it.CallIn?
    ensures CallSays(c, it, CallOfItem(c, it))
  {
    assert ArgumentsSay(c, it.arguments, ChatToolArguments(c, it.arguments));
  }
}
