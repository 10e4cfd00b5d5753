/**
 Which values of a tool output are images, and what each of them becomes, shape by shape.
 (convert/request_media.go chatImageFromToolValue and the helpers it calls)
 */
module ImageShapes {
  import opened Common
  import opened Json
  import opened Media
  import opened MediaPaths

  // ---------- texts ----------

  /** `c` is the small letter or sign `w`, or that letter's capital; two letters outside ASCII also count. */
  predicate CharSpells(c: char, w: char) {
    || c == w
    || ('a' <= w <= 'z' && c as int == w as int - 32)
    || (w == 'i' && c as int == 0x130) || (w == 'k' && c as int == 0x212A)
  }

  /** `s` is `word`, which has no capitals, in any mixture of cases. */
  predicate Spells(s: string, word: string) {
    |s| == |word| && forall i :: 0 <= i < |s| ==> CharSpells(s[i], word[i])
  }

  predicate Small(word: string) { forall i :: 0 <= i < |word| ==> word[i] as int < 128 && !('A' <= word[i] <= 'Z') }

  lemma LowerSpells(s: string, word: string)
    requires Small(word)
    ensures ToLower(s) == word <==> Spells(s, word)
  {
    if ToLower(s) == word {
      forall i | 0 <= i < |s| ensures CharSpells(s[i], word[i]) { assert ToLower(s)[i] == word[i]; }
    }
    if Spells(s, word) {
      forall i | 0 <= i < |s| ensures ToLower(s)[i] == word[i] { assert CharSpells(s[i], word[i]); }
    }
  }

  predicate StartsWith(s: string, word: string) { |word| <= |s| && Spells(s[..|word|], word) }

  lemma LowerStarts(s: string, word: string)
    requires Small(word)
    ensures HasPrefix(ToLower(s), word) <==> StartsWith(s, word)
  {
    if |word| <= |s| {
      assert ToLower(s)[..|word|] == ToLower(s[..|word|]);
      LowerSpells(s[..|word|], word);
    }
  }

  /** The comma that ends the media type of an image data URL. */
  predicate ImageDataUpTo(t: string, i: nat) {
    && i < |t| && t[i] == ',' && ',' !in t[..i]
    && StartsWith(t, "data:image/") && 11 <= i
    && 7 <= i && Spells(t[i - 7..i], ";base64")
  }

  /** data:image/...;base64,... in any case. */
  ghost predicate IsDataURL(t: string) { exists i: nat :: ImageDataUpTo(t, i) }

  lemma ImageDataLower(t: string, i: nat)
    requires i < |t|
    ensures var low := ToLower(t)[..i];
            HasPrefix(low, "data:image/") && HasSuffix(low, ";base64")
            <==> StartsWith(t, "data:image/") && 11 <= i && Spells(t[i - 7..i], ";base64")
  {
    hide ToLower, Spells;
    LowerCut(t, 0, i);
    var low := ToLower(t)[..i];
    if 11 <= i {
      LowerStarts(t[..i], "data:image/");
      assert t[..i][..11] == t[..11];
      LowerCut(t, i - 7, i);
      assert low[|low| - 7..] == ToLower(t)[i - 7..i];
      LowerSpells(t[i - 7..i], ";base64");
    }
  }

  lemma LowerCut(t: string, a: nat, b: nat)
    requires a <= b <= |t|
    ensures |ToLower(t)| == |t| && ToLower(t)[a..b] == ToLower(t[a..b]) && ToLower(t)[..b] == ToLower(t[..b])
  {
  }

  lemma LowerCommas(t: string, i: nat)
    requires i <= |t|
    ensures i < |t| ==> (ToLower(t)[i] == ',' <==> t[i] == ',')
    ensures ',' in ToLower(t)[..i] <==> ',' in t[..i]
  {
    if ',' in ToLower(t)[..i] {
      var k :| 0 <= k < i && ToLower(t)[k] == ',';
      assert t[..i][k] == ',';
    }
    if ',' in t[..i] {
      var k :| 0 <= k < i && t[k] == ',';
      assert ToLower(t)[..i][k] == ',';
    }
  }

  /** isImageDataURL. */
  lemma DataURLIs(s: string)
    ensures IsImageDataURL(s) <==> IsDataURL(TrimSpace(s))
  {
    hide TrimSpace, ToLower, Spells, StartsWith;
    var t := TrimSpace(s);
    LowerCommas(t, |t|);
    LowerCut(t, 0, |t|);
    assert t[..|t|] == t && ToLower(t)[..|t|] == ToLower(t);
    var comma := Comma(ToLower(t));
    if comma.Some? {
      var i := comma.value;
      LowerCommas(t, i);
      ImageDataLower(t, i);
      assert forall j: nat :: ImageDataUpTo(t, j) ==> j == i;
      if IsImageDataURL(s) { assert ImageDataUpTo(t, i); }
    }
  }

  /** The detail hints Chat knows; "original" is its highest. */
  predicate DetailMeans(raw: string, detail: string) {
    var t := TrimSpace(raw);
    if Spells(t, "auto") then detail == "auto"
    else if Spells(t, "low") then detail == "low"
    else if Spells(t, "high") || Spells(t, "original") then detail == "high"
    else detail == ""
  }

  lemma DetailIs(raw: string)
    ensures DetailMeans(raw, NormalizeDetail(raw))
  {
    hide TrimSpace, ToLower, Spells;
    var t := TrimSpace(raw);
    LowerSpells(t, "auto");
    LowerSpells(t, "low");
    LowerSpells(t, "high");
    LowerSpells(t, "original");
  }

  // ---------- fields ----------

  /** The object has a text in this field that is not blank. */
  predicate Says(f: Fields, key: string) { key in f && f[key].Str? && !AllSpace(f[key].s) }

  /** `text` is what the first of the fields that says something says; "" when none does. */
  ghost predicate FirstSaid(f: Fields, keys: seq<string>, text: string) {
    || (text == "" && forall i :: 0 <= i < |keys| ==> !Says(f, keys[i]))
    || exists i: nat :: FirstSaidAt(f, keys, i) && text == f[keys[i]].s
  }

  predicate FirstSaidAt(f: Fields, keys: seq<string>, i: nat) {
    i < |keys| && Says(f, keys[i]) && forall j :: 0 <= j < i ==> !Says(f, keys[j])
  }

  lemma FieldIs(f: Fields, key: string)
    ensures StringField(f, key) == if Says(f, key) then f[key].s else ""
    ensures Says(f, key) <==> StringField(f, key) != ""
    ensures StringField(f, key) == "" || TrimSpace(StringField(f, key)) != ""
  {
    hide TrimSpace;
    if key in f && f[key].Str? { TrimsToNothing(f[key].s); }
  }

  lemma {:induction false} FirstIs(f: Fields, keys: seq<string>)
    ensures FirstSaid(f, keys, FirstString(f, keys))
    ensures FirstString(f, keys) != "" <==> exists i :: 0 <= i < |keys| && Says(f, keys[i])
  {
    hide Says, StringField;
    if keys != [] {
      FieldIs(f, keys[0]);
      FirstIs(f, keys[1..]);
      if Says(f, keys[0]) {
        assert FirstSaidAt(f, keys, 0);
      } else {
        FirstAfter(f, keys);
      }
    }
  }

  lemma FirstAfter(f: Fields, keys: seq<string>)
    requires keys != [] && !Says(f, keys[0])
    requires var text := FirstString(f, keys[1..]);
             && FirstSaid(f, keys[1..], text)
             && (text != "" <==> exists i :: 0 <= i < |keys[1..]| && Says(f, keys[1..][i]))
    ensures var text := FirstString(f, keys[1..]);
            && FirstSaid(f, keys, text)
            && (text != "" <==> exists i :: 0 <= i < |keys| && Says(f, keys[i]))
  {
    hide FirstString;
    var text := FirstString(f, keys[1..]);
    if i: nat :| FirstSaidAt(f, keys[1..], i) && text == f[keys[1..][i]].s {
      assert keys[1..][i] == keys[i + 1];
      forall j | 0 <= j < i + 1 ensures !Says(f, keys[j]) {
        if j > 0 { assert keys[j] == keys[1..][j - 1]; }
      }
      assert FirstSaidAt(f, keys, i + 1);
    }
    if i :| 0 <= i < |keys| && Says(f, keys[i]) {
      assert keys[i] == keys[1..][i - 1];
    }
    if i :| 0 <= i < |keys[1..]| && Says(f, keys[1..][i]) {
      assert keys[i + 1] == keys[1..][i];
    }
  }

  // ---------- shapes ----------

  /** The type an object names; a missing type and one that is no text name none. */
  predicate Named(f: Fields, kind: string) {
    if "type" in f && f["type"].Str? then f["type"].s == kind else kind == ""
  }

  predicate HasObject(f: Fields, key: string) { key in f && f[key].Obj? }

  predicate SaysInside(f: Fields, key: string, inner: string) { HasObject(f, key) && Says(f[key].fields, inner) }

  /** The text `text` is said by a field of an inner object, else by the object's own field, else it is "". */
  predicate InsideFirst(f: Fields, key: string, name: string, text: string) {
    if SaysInside(f, key, name) then text == f[key].fields[name].s
    else if Says(f, name) then text == f[name].s
    else text == ""
  }

  /** The link of an object: its image_url as it stands, or the url in it. */
  predicate LinksTo(f: Fields, url: string) {
    if "image_url" in f && f["image_url"].Str? then url == f["image_url"].s
    else if SaysInside(f, "image_url", "url") then url == f["image_url"].fields["url"].s
    else url == ""
  }

  predicate HasLink(f: Fields) { Says(f, "image_url") || SaysInside(f, "image_url", "url") }

  predicate HasFile(f: Fields) { SaysInside(f, "image_url", "file_id") || Says(f, "file_id") }

  /** The image is the linked one, verbatim, with its file id and its detail. */
  ghost predicate Linked(f: Fields, image: ChatPart) {
    && image.ImagePart?
    && LinksTo(f, image.url)
    && InsideFirst(f, "image_url", "file_id", image.fileID)
    && exists raw :: InsideFirst(f, "image_url", "detail", raw) && DetailMeans(raw, image.detail)
  }

  predicate SaysImageType(f: Fields) {
    if Says(f, "mimeType") then StartsWith(f["mimeType"].s, "image/")
    else Says(f, "mime_type") && StartsWith(f["mime_type"].s, "image/")
  }

  /** Image data as a URL: itself when it is one already, otherwise under its type, image/png when it names no image. */
  ghost predicate DataAs(mime: string, data: string, url: string) {
    if IsDataURL(TrimSpace(data)) then url == data
    else url == "data:" + (if StartsWith(mime, "image/") then mime else "image/png") + ";base64," + data
  }

  /** The image of an object whose type is "image". */
  ghost predicate Embedded(f: Fields, image: ChatPart) {
    && image.ImagePart? && image.fileID == ""
    && (exists raw :: (if Says(f, "detail") then raw == f["detail"].s else raw == "") && DetailMeans(raw, image.detail))
    && if SaysInside(f, "source", "url") then image.url == f["source"].fields["url"].s
       else if SaysInside(f, "source", "data") || SaysInside(f, "source", "base64") then
         exists mime, data ::
           && FirstSaid(f["source"].fields, ["media_type", "mime_type", "mimeType"], mime)
           && FirstSaid(f["source"].fields, ["data", "base64"], data)
           && DataAs(mime, data, image.url)
       else
         exists mime ::
           Says(f, "data") && FirstSaid(f, ["mimeType", "mime_type"], mime) && DataAs(mime, f["data"].s, image.url)
  }

  /** The values that are images. */
  ghost predicate HasShape(v: Value) {
    match v
    case Str(s) => IsDataURL(TrimSpace(s))
    case Obj(f) =>
      || ((Named(f, "input_image") || Named(f, "image_url")) && (HasLink(f) || HasFile(f)))
      || (Named(f, "image")
          && (|| SaysInside(f, "source", "url") || SaysInside(f, "source", "data") || SaysInside(f, "source", "base64")
              || (Says(f, "data") && SaysImageType(f))))
      || (Named(f, "") && exists url :: LinksTo(f, url) && IsDataURL(TrimSpace(url)))
    case _ => false
  }

  /** What an image becomes. */
  ghost predicate Pictured(v: Value, image: ChatPart) {
    match v
    case Str(s) => image == ImagePart(TrimSpace(s), "", "")
    case Obj(f) => if Named(f, "image") then Embedded(f, image) else Linked(f, image)
    case _ => false
  }

  lemma InnerIs(f: Fields, key: string, name: string)
    requires HasObject(f, key)
    ensures var inner := StringField(f[key].fields, name);
            && (SaysInside(f, key, name) <==> inner != "")
            && InsideFirst(f, key, name, if inner == "" then StringField(f, name) else inner)
  {
    hide Says, StringField;
    FieldIs(f[key].fields, name);
    FieldIs(f, name);
  }

  lemma OuterIs(f: Fields, key: string, name: string)
    requires !HasObject(f, key)
    ensures InsideFirst(f, key, name, StringField(f, name)) && !SaysInside(f, key, name)
  {
    hide Says, StringField;
    FieldIs(f, name);
  }

  lemma LinkedIs(f: Fields)
    ensures ImageFromURLValue(f).Some? <==> HasLink(f) || HasFile(f)
    ensures ImageFromURLValue(f).Some? ==> Linked(f, ImageFromURLValue(f).value)
  {
    hide StringField, TrimSpace, DetailMeans, NormalizeDetail, Linked;
    TrimsToNothing("");
    FieldIs(f, "file_id");
    if HasObject(f, "image_url") {
      InnerIs(f, "image_url", "url");
      InnerIs(f, "image_url", "file_id");
      InnerIs(f, "image_url", "detail");
      var inner := f["image_url"].fields;
      FieldIs(inner, "url");
      FieldIs(inner, "file_id");
      var own := StringField(inner, "detail");
      LinkedWith(f, StringField(inner, "url"),
                 if StringField(inner, "file_id") == "" then StringField(f, "file_id")
                 else StringField(inner, "file_id"),
                 if own == "" then StringField(f, "detail") else own);
    } else {
      OuterIs(f, "image_url", "file_id");
      OuterIs(f, "image_url", "detail");
      var url := if "image_url" in f && f["image_url"].Str? then f["image_url"].s else "";
      TrimsToNothing(url);
      LinkedWith(f, url, StringField(f, "file_id"), StringField(f, "detail"));
    }
  }

  lemma LinkedWith(f: Fields, url: string, file: string, raw: string)
    requires LinksTo(f, url)
    requires InsideFirst(f, "image_url", "file_id", file) && InsideFirst(f, "image_url", "detail", raw)
    ensures Linked(f, NewImage(url, file, raw))
  {
    hide LinksTo, InsideFirst, DetailMeans, NormalizeDetail;
    DetailIs(raw);
  }

  lemma DataURLOf(mime: string, data: string)
    ensures DataAs(mime, data, ImageDataURL(mime, data))
  {
    hide IsImageDataURL, IsDataURL, ToLower, StartsWith, TrimSpace;
    DataURLIs(data);
    LowerStarts(mime, "image/");
  }

  lemma OwnDetail(f: Fields, image: ChatPart)
    requires image.ImagePart? && image.detail == NormalizeDetail(StringField(f, "detail"))
    ensures exists raw ::
              (if Says(f, "detail") then raw == f["detail"].s else raw == "") && DetailMeans(raw, image.detail)
  {
    hide Says, StringField, DetailMeans, NormalizeDetail;
    FieldIs(f, "detail");
    DetailIs(StringField(f, "detail"));
  }

  lemma EitherField(f: Fields, a: string, b: string)
    ensures FirstString(f, [a, b]) != "" <==> Says(f, a) || Says(f, b)
    ensures FirstString(f, [a, b]) == if Says(f, a) then f[a].s else if Says(f, b) then f[b].s else ""
  {
    hide Says, StringField;
    FieldIs(f, a);
    FieldIs(f, b);
    assert [a, b][1..] == [b] && [b][1..] == [];
    assert FirstString(f, [b]) == StringField(f, b);
  }

  predicate HasSource(f: Fields) {
    SaysInside(f, "source", "url") || SaysInside(f, "source", "data") || SaysInside(f, "source", "base64")
  }

  lemma SourceIs(f: Fields)
    ensures ImageFromSource(f).Some? <==> HasSource(f)
    ensures ImageFromSource(f).Some? ==> Embedded(f, ImageFromSource(f).value)
  {
    hide Says, StringField, FirstString, FirstSaid, DataAs, ImageDataURL, DetailMeans, NormalizeDetail;
    if HasObject(f, "source") {
      var source := f["source"].fields;
      FieldIs(source, "url");
      EitherField(source, "data", "base64");
      FirstIs(source, ["data", "base64"]);
      FirstIs(source, ["media_type", "mime_type", "mimeType"]);
      var mime := FirstString(source, ["media_type", "mime_type", "mimeType"]);
      var data := FirstString(source, ["data", "base64"]);
      DataURLOf(mime, data);
      if HasSource(f) { OwnDetail(f, ImageFromSource(f).value); }
    }
  }

  lemma DataIs(f: Fields)
    requires !HasSource(f)
    ensures ImageFromData(f).Some? <==> Says(f, "data") && SaysImageType(f)
    ensures ImageFromData(f).Some? ==> Embedded(f, ImageFromData(f).value)
  {
    hide Says, StringField, FirstString, FirstSaid, DataAs, ImageDataURL, DetailMeans, NormalizeDetail, ToLower, Spells;
    FieldIs(f, "data");
    EitherField(f, "mimeType", "mime_type");
    FirstIs(f, ["mimeType", "mime_type"]);
    var mime := FirstString(f, ["mimeType", "mime_type"]);
    LowerStarts(mime, "image/");
    DataURLOf(mime, StringField(f, "data"));
    if ImageFromData(f).Some? { OwnDetail(f, ImageFromData(f).value); }
  }

  lemma ObjectIs(f: Fields)
    ensures IsImage(Obj(f)) <==> HasShape(Obj(f))
    ensures IsImage(Obj(f)) ==> Pictured(Obj(f), ImageOf(Obj(f)))
  {
    hide ImageFromURLValue, ImageFromSource, ImageFromData, Says, IsDataURL, IsImageDataURL, Linked, Embedded, LinksTo,
         HasLink, HasFile, SaysImageType, SaysInside;
    LinkedIs(f);
    SourceIs(f);
    if !HasSource(f) { DataIs(f); }
    if Named(f, "") { UntypedIs(f); }
  }

  lemma UntypedIs(f: Fields)
    ensures ImageFromURLValue(f).Some? && IsImageDataURL(ImageFromURLValue(f).value.url)
            <==> exists url :: LinksTo(f, url) && IsDataURL(TrimSpace(url))
  {
    hide ImageFromURLValue, IsDataURL, IsImageDataURL, InsideFirst, DetailMeans, TrimSpace;
    LinkedIs(f);
    if ImageFromURLValue(f).Some? { DataURLIs(ImageFromURLValue(f).value.url); }
    if url :| LinksTo(f, url) && IsDataURL(TrimSpace(url)) {
      DataURLIs(url);
      DataNotBlank(url);
    }
  }

  lemma DataNotBlank(url: string)
    requires IsDataURL(TrimSpace(url))
    ensures !AllSpace(url)
  {
    hide TrimSpace, AllSpace;
    TrimsToNothing(url);
  }

  lemma TextIs(s: string)
    ensures IsImage(Str(s)) <==> HasShape(Str(s))
    ensures IsImage(Str(s)) ==> Pictured(Str(s), ImageOf(Str(s)))
  {
    hide TrimSpace, IsDataURL, IsImageDataURL;
    DataURLIs(TrimSpace(s));
    TrimTwice(s);
    TrimsToNothing("");
  }

  lemma TrimTwice(s: string)
    ensures TrimSpace(TrimSpace(s)) == TrimSpace(s)
  {
    hide IsSpace, TrimSpace;
    TrimIs(s);
    var t := TrimSpace(s);
    if t != "" { TrimSpaceOfTrimmed(t); } else { TrimsToNothing(""); }
  }

  /** What counts as an image, by the shapes it can have, and what each becomes. */
  lemma ImagesHaveShape(v: Value)
    ensures IsImage(v) <==> HasShape(v)
    ensures IsImage(v) ==> Pictured(v, ImageOf(v))
  {
    hide ImageFromDataURL, ImageFromObject, HasShape, Pictured;
    match v
    case Str(s) => TextIs(s);
    case Obj(f) => ObjectIs(f);
    case _ => NoShape(v);
  }

  lemma NoShape(v: Value)
    requires !v.Str? && !v.Obj?
    ensures !IsImage(v) && !HasShape(v)
  {
  }

  /** What is left where an image stood: a notice, as a text or as a text object. */
  predicate Notice(was: Value, left: Value) {
    var notice := "[" + "apid: tool result media moved to the following user message" + "]";
    if was.Str? then left == Str(notice) else left == Obj(map["type" := Str("text"), "text" := Str(notice)])
  }

  lemma MarkerIsNotice(v: Value)
    ensures Notice(v, MarkerFor(v))
  {
  }

  /** A path to an image within the depth bound. */
  ghost predicate LeadsToShape(c: Codec, v: Value, p: Path) {
    |p| <= MAX_DEPTH && At(c, v, p).Some? && HasShape(At(c, v, p).value)
  }

  /** The images of a value, each once, in the order they are met. */
  ghost predicate GatheredFrom(c: Codec, v: Value, media: seq<ChatPart>, ps: seq<Path>) {
    && |ps| == |media| && InOrder(ps)
    && (forall p :: p in ps <==> LeadsToShape(c, v, p))
    && forall i :: 0 <= i < |ps| ==> LeadsToShape(c, v, ps[i]) && Pictured(At(c, v, ps[i]).value, media[i])
  }

  /** The media list of a tool output shows each of its images once, in the order they are met, and nothing else. */
  lemma MediaGathered(c: Codec, v: Value)
    ensures GatheredFrom(c, v, Strip(c, v, 0).media, Paths(c, v, 0))
  {
    hide Strip, Paths, InOrder, IsImage, HasShape, Pictured, ImageOf, At;
    var media, ps := Strip(c, v, 0).media, Paths(c, v, 0);
    PathsAreMedia(c, v, 0);
    PathsInOrder(c, v, 0);
    forall p ensures p in ps <==> LeadsToShape(c, v, p) {
      PathsComplete(c, v, 0, p);
      if At(c, v, p).Some? { ImagesHaveShape(At(c, v, p).value); }
    }
    forall i | 0 <= i < |ps| ensures LeadsToShape(c, v, ps[i]) && Pictured(At(c, v, ps[i]).value, media[i]) {
      assert ps[i] in ps && ShowsPath(c, v, ps[i], media[i]);
      ImagesHaveShape(At(c, v, ps[i]).value);
    }
  }

  /**
   Every image of a tool output is moved, once and in order: the paths taken end in values of one of the shapes, no
   other path within the depth bound does, each entry of the media list is the picture at its path, and a notice is
   left there.
   */
  lemma EveryShapeOnce(c: Codec, v: Value)
    requires JsonCodec(c)
    ensures var r, ps := Strip(c, v, 0), Paths(c, v, 0);
            && GatheredFrom(c, v, r.media, ps)
            && forall i :: 0 <= i < |ps| ==>
                 At(c, r.value, ps[i]).Some? && Notice(At(c, v, ps[i]).value, At(c, r.value, ps[i]).value)
  {
    hide Strip, Paths, JsonCodec, InOrder, IsImage, HasShape, Pictured, ImageOf, MarkerFor, At, Notice;
    EveryImageOnce(c, v);
    MediaGathered(c, v);
    var r, ps := Strip(c, v, 0), Paths(c, v, 0);
    forall i | 0 <= i < |ps| ensures Notice(At(c, v, ps[i]).value, At(c, r.value, ps[i]).value) {
      assert ps[i] in ps;
      MarkerIsNotice(At(c, v, ps[i]).value);
    }
  }
}
