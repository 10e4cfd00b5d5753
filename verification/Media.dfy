/**
 Images in tool results: recognising them, replacing them by a marker through arrays, content fields and JSON text
 nested in strings, and collecting them for a following user message. (convert/request_media.go)
 */
module Media {
  import opened Common
  import opened Json

  datatype ChatPart = TextPart(text: string) | ImagePart(url: string, fileID: string, detail: string)

  const NOTICE := "apid: tool result media moved to the following user message"
  const MARKER := "[" + NOTICE + "]"
  const MAX_DEPTH: nat := 32

  // ---------- text helpers ----------

  /** strings.ToLower as far as its result can be ASCII: two letters outside ASCII lower into it. */
  function LowerChar(c: char): char {
    if 'A' <= c <= 'Z' then (c as int + 32) as char
    else if c as int == 0x130 then 'i'
    else if c as int == 0x212A then 'k'
    else c
  }

  function ToLower(s: string): string {
    seq(|s|, i requires 0 <= i < |s| => LowerChar(s[i]))
  }

  /** The position of the first comma, or None. */
  function Comma(s: string): (r: Option<nat>)
    ensures r.Some? ==> r.value < |s| && s[r.value] == ',' && ',' !in s[..r.value]
    ensures r.None? ==> ',' !in s
  {
    if s == "" then None
    else if s[0] == ',' then Some(0)
    else
      match Comma(s[1..])
      case Some(i) => Some(i + 1)
      case None => None
  }

  predicate IsImageDataURL(value: string) {
    var s := ToLower(TrimSpace(value));
    match Comma(s)
    case Some(i) => i > 0 && HasPrefix(s[..i], "data:image/") && HasSuffix(s[..i], ";base64")
    case None => false
  }

  function NormalizeDetail(detail: string): string {
    var d := ToLower(TrimSpace(detail));
    if d == "auto" || d == "low" || d == "high" then d
    else if d == "original" then "high"
    else ""
  }

  // ---------- recognising an image ----------

  type Fields = map<string, Value>

  function StringField(fields: Fields, key: string): string {
    if key in fields && fields[key].Str? && TrimSpace(fields[key].s) != "" then fields[key].s else ""
  }

  /** stringValue: the first of the keys that holds a non-blank text. */
  function FirstString(fields: Fields, keys: seq<string>): string {
    if keys == [] then ""
    else if StringField(fields, keys[0]) != "" then StringField(fields, keys[0])
    else FirstString(fields, keys[1..])
  }

  function NewImage(url: string, fileID: string, detail: string): ChatPart {
    ImagePart(url, fileID, NormalizeDetail(detail))
  }

  function ImageFromDataURL(value: string): Option<ChatPart> {
    if IsImageDataURL(TrimSpace(value)) then Some(NewImage(TrimSpace(value), "", "")) else None
  }

  function ImageDataURL(mimeType: string, data: string): string {
    if IsImageDataURL(data) then data
    else "data:" + (if HasPrefix(ToLower(mimeType), "image/") then mimeType else "image/png") + ";base64," + data
  }

  function ImageFromURLValue(fields: Fields): Option<ChatPart> {
    var (url, fileID, detail) :=
      if "image_url" !in fields then ("", "", "")
      else
        match fields["image_url"]
        case Str(s) => (s, "", "")
        case Obj(inner) => (StringField(inner, "url"), StringField(inner, "file_id"), StringField(inner, "detail"))
        case _ => ("", "", "");
    var file := if fileID == "" then StringField(fields, "file_id") else fileID;
    var det := if detail == "" then StringField(fields, "detail") else detail;
    if TrimSpace(url) == "" && TrimSpace(file) == "" then None else Some(NewImage(url, file, det))
  }

  function ImageFromSource(fields: Fields): Option<ChatPart> {
    if "source" in fields && fields["source"].Obj? then
      var source := fields["source"].fields;
      if StringField(source, "url") != "" then
        Some(NewImage(StringField(source, "url"), "", StringField(fields, "detail")))
      else if FirstString(source, ["data", "base64"]) != "" then
        Some(NewImage(ImageDataURL(FirstString(source, ["media_type", "mime_type", "mimeType"]),
                                   FirstString(source, ["data", "base64"])),
                      "", StringField(fields, "detail")))
      else None
    else None
  }

  function ImageFromData(fields: Fields): Option<ChatPart> {
    var mimeType := FirstString(fields, ["mimeType", "mime_type"]);
    if StringField(fields, "data") != "" && HasPrefix(ToLower(mimeType), "image/") then
      Some(NewImage(ImageDataURL(mimeType, StringField(fields, "data")), "", StringField(fields, "detail")))
    else None
  }

  function TypeName(fields: Fields): string {
    if "type" in fields && fields["type"].Str? then fields["type"].s else ""
  }

  /** chatImageFromToolValue: the image an object stands for, if it is one. Its "content" plays no part. */
  function ImageFromObject(fields: Fields): Option<ChatPart> {
    match TypeName(fields)
    case "input_image" => ImageFromURLValue(fields)
    case "image_url" => ImageFromURLValue(fields)
    case "image" => if ImageFromSource(fields).Some? then ImageFromSource(fields) else ImageFromData(fields)
    case "" =>
      (match ImageFromURLValue(fields)
       case Some(image) => if IsImageDataURL(image.url) then Some(image) else None
       case None => None)
    case _ => None
  }

  // ---------- stripping ----------

  datatype Stripped = Stripped(value: Value, media: seq<ChatPart>, count: nat)

  function MarkerObject(): Value { Obj(map["type" := Str("text"), "text" := Str(MARKER)]) }

  /** stripToolImages: the value with its images replaced, the images in the order met, and their number. */
  function Strip(c: Codec, v: Value, depth: nat): Stripped
    decreases MAX_DEPTH + 1 - depth, 0
  {
    if depth > MAX_DEPTH then Stripped(v, [], 0)
    else
      match v
      case Str(s) => StripText(c, s, depth)
      case Arr(items) =>
        var r := StripItems(c, items, depth + 1);
        Stripped(Arr(r.0), r.1, r.2)
      case Obj(fields) =>
        if ImageFromObject(fields).Some? then Stripped(MarkerObject(), [ImageFromObject(fields).value], 1)
        else if "content" !in fields then Stripped(v, [], 0)
        else
          var r := Strip(c, fields["content"], depth + 1);
          Stripped(if r.count > 0 then Obj(fields["content" := r.value]) else v, r.media, r.count)
      case _ => Stripped(v, [], 0)
  }

  function StripText(c: Codec, s: string, depth: nat): Stripped
    requires depth <= MAX_DEPTH
    decreases MAX_DEPTH - depth, 1
  {
    if ImageFromDataURL(s).Some? then Stripped(Str(MARKER), [ImageFromDataURL(s).value], 1)
    else
      match c.decode(s)
      case None => Stripped(Str(s), [], 0)
      case Some(nested) =>
        var r := Strip(c, nested, depth + 1);
        if r.count == 0 then Stripped(Str(s), [], 0) else Stripped(Str(c.encode(r.value)), r.media, r.count)
  }

  function StripItems(c: Codec, items: seq<Value>, depth: nat): (r: (seq<Value>, seq<ChatPart>, nat))
    ensures |r.0| == |items|
    decreases MAX_DEPTH + 1 - depth, |items| + 1
  {
    if items == [] then ([], [], 0)
    else
      var n := |items| - 1;
      var before := StripItems(c, items[..n], depth);
      var last := Strip(c, items[n], depth);
      (before.0 + [last.value], before.1 + last.media, before.2 + last.count)
  }

  method StripToolImages(c: Codec, v: Value, depth: nat) returns (r: Stripped)
    ensures r == Strip(c, v, depth)
    decreases MAX_DEPTH + 1 - depth
  {
    hide StripItems, ImageFromDataURL, ImageFromObject;
    if depth > MAX_DEPTH {
      return Stripped(v, [], 0);
    }
    match v {
      case Str(s) =>
        var image := ImageFromDataURL(s);
        if image.Some? {
          return Stripped(Str(MARKER), [image.value], 1);
        }
        var nested := c.decode(s);
        if nested.None? {
          return Stripped(v, [], 0);
        }
        r := StripToolImages(c, nested.value, depth + 1);
        if r.count == 0 {
          return Stripped(v, [], 0);
        }
        return Stripped(Str(c.encode(r.value)), r.media, r.count);
      case Arr(items) =>
        var cleaned := items;
        var media: seq<ChatPart> := [];
        var count := 0;
        NoItems(c, depth + 1);
        assert items[..0] == [];
        for i := 0 to |items|
          invariant |cleaned| == |items| && cleaned[i..] == items[i..]
          invariant (cleaned[..i], media, count) == StripItems(c, items[..i], depth + 1)
        {
          var found := StripToolImages(c, cleaned[i], depth + 1);
          StripItemsStep(c, items, i, depth + 1);
          assert cleaned[i] == cleaned[i..][0] == items[i];
          cleaned := cleaned[i := found.value];
          media := media + found.media;
          count := count + found.count;
          assert cleaned[..i + 1] == cleaned[..i] + [found.value];
        }
        assert cleaned[..|items|] == cleaned && items[..|items|] == items;
        return Stripped(Arr(cleaned), media, count);
      case Obj(fields) =>
        var image := ImageFromObject(fields);
        if image.Some? {
          return Stripped(MarkerObject(), [image.value], 1);
        }
        if "content" !in fields {
          return Stripped(v, [], 0);
        }
        r := StripToolImages(c, fields["content"], depth + 1);
        return Stripped(if r.count > 0 then Obj(fields["content" := r.value]) else v, r.media, r.count);
      case _ =>
        return Stripped(v, [], 0);
    }
  }

  lemma NoItems(c: Codec, depth: nat)
    ensures StripItems(c, [], depth) == ([], [], 0)
  {
  }

  /** One more element. */
  lemma StripItemsStep(c: Codec, items: seq<Value>, i: nat, depth: nat)
    requires i < |items|
    ensures var before, last := StripItems(c, items[..i], depth), Strip(c, items[i], depth);
            StripItems(c, items[..i + 1], depth)
            == (before.0 + [last.value], before.1 + last.media, before.2 + last.count)
  {
    hide Strip;
    assert items[..i + 1][..i] == items[..i];
  }

  // ---------- what stripping guarantees ----------

  /** The count is the number of images, and without images nothing changes. */
  lemma {:induction false} StripCounts(c: Codec, v: Value, depth: nat)
    ensures var r := Strip(c, v, depth);
            r.count == |r.media| && (r.count == 0 ==> r.value == v)
    decreases MAX_DEPTH + 1 - depth, 0
  {
    hide ImageFromDataURL, ImageFromObject;
    if depth <= MAX_DEPTH {
      match v
      case Str(s) => if c.decode(s).Some? { StripCounts(c, c.decode(s).value, depth + 1); }
      case Arr(items) => StripItemsCounts(c, items, depth + 1);
      case Obj(fields) => if "content" in fields { StripCounts(c, fields["content"], depth + 1); }
      case _ =>
    }
  }

  lemma {:induction false} StripItemsCounts(c: Codec, items: seq<Value>, depth: nat)
    ensures var r := StripItems(c, items, depth);
            r.2 == |r.1| && (r.2 == 0 ==> r.0 == items)
    decreases MAX_DEPTH + 1 - depth, |items| + 1
  {
    if items != [] {
      var n := |items| - 1;
      StripItemsCounts(c, items[..n], depth);
      StripCounts(c, items[n], depth);
      assert items == items[..n] + [items[n]];
    }
  }

  /** How a JSON text can begin. */
  predicate BeginsLikeJson(text: string) {
    text != "" && (text[0] in ['{', '[', '\"', 't', 'f', 'n', '-'] || '0' <= text[0] <= '9')
  }

  /** What else JSON gives: printed values begin like JSON, and the marker is not JSON. */
  ghost predicate JsonCodec(c: Codec) {
    && Lawful(c)
    && (forall v :: BeginsLikeJson(c.encode(v)))
    && c.decode(MARKER) == None
  }

  /** An image data URL begins with the letter d, in either case. */
  lemma DataURLBegins(value: string)
    requires IsImageDataURL(value)
    ensures TrimSpace(value) != "" && LowerChar(TrimSpace(value)[0]) == 'd'
  {
    var low := ToLower(TrimSpace(value));
    var i := Comma(low).value;
    assert low[..i][0] == "data:image/"[0];
  }

  lemma JsonIsNoImage(text: string)
    requires BeginsLikeJson(text) && TrimSpace(text) == text
    ensures !IsImageDataURL(text)
  {
    hide IsImageDataURL, TrimSpace;
    if IsImageDataURL(text) { DataURLBegins(text); }
  }

  /** Printed JSON is never taken for an image data URL. */
  lemma PrintedIsNoImage(c: Codec, v: Value)
    requires JsonCodec(c)
    ensures ImageFromDataURL(c.encode(v)) == None
  {
    var text := c.encode(v);
    assert RoundTrips(c, v) && BeginsLikeJson(text);
    TrimSpaceOfTrimmed(text);
    JsonIsNoImage(text);
  }

  lemma MarkerIsNoImage()
    ensures ImageFromDataURL(MARKER) == None
  {
    assert MARKER[0] == '[' && MARKER[|MARKER| - 1] == ']' && '[' as int == 91 && ']' as int == 93;
    TrimSpaceOfTrimmed(MARKER);
    if IsImageDataURL(MARKER) { DataURLBegins(MARKER); }
  }

  lemma OtherFieldKept(fields: Fields, v: Value, key: string)
    requires key != "content"
    ensures var f1 := fields["content" := v];
            && (key in f1 <==> key in fields) && (key in fields ==> f1[key] == fields[key])
            && StringField(f1, key) == StringField(fields, key)
  {
  }

  lemma ContentPlaysNoPart(fields: Fields, v: Value)
    ensures ImageFromObject(fields["content" := v]) == ImageFromObject(fields)
  {
    hide StringField, IsImageDataURL, ImageDataURL, NewImage, ToLower, TrimSpace;
    assert "file_id"[0] != "content"[0];
    OtherFieldKept(fields, v, "type");
    OtherFieldKept(fields, v, "image_url");
    OtherFieldKept(fields, v, "file_id");
    OtherFieldKept(fields, v, "detail");
    OtherFieldKept(fields, v, "source");
    OtherFieldKept(fields, v, "data");
    OtherFieldKept(fields, v, "mimeType");
    OtherFieldKept(fields, v, "mime_type");
    assert ["mimeType", "mime_type"][1..] == ["mime_type"] && ["mime_type"][1..] == [];
    assert FirstString(fields["content" := v], ["mime_type"]) == FirstString(fields, ["mime_type"]);
  }

  /** Stripping leaves no image behind: a second pass at the same depth finds nothing and changes nothing. */
  lemma {:induction false} StripIsIdempotent(c: Codec, v: Value, depth: nat)
    requires JsonCodec(c)
    ensures Strip(c, Strip(c, v, depth).value, depth) == Stripped(Strip(c, v, depth).value, [], 0)
    decreases MAX_DEPTH + 1 - depth, 0
  {
    if depth <= MAX_DEPTH {
      match v
      case Str(s) => TextIdempotent(c, s, depth);
      case Arr(items) => ItemsIdempotent(c, items, depth + 1);
      case Obj(fields) => ObjectIdempotent(c, fields, depth);
      case _ =>
    }
  }

  lemma {:induction false} TextIdempotent(c: Codec, s: string, depth: nat)
    requires JsonCodec(c) && depth <= MAX_DEPTH
    ensures var r := StripText(c, s, depth);
            r.value.Str? && StripText(c, r.value.s, depth) == Stripped(r.value, [], 0)
    decreases MAX_DEPTH - depth, 1
  {
    hide ImageFromDataURL;
    if ImageFromDataURL(s).Some? {
      MarkerIsNoImage();
    } else if c.decode(s).Some? {
      var nested := c.decode(s).value;
      StripIsIdempotent(c, nested, depth + 1);
      var w := Strip(c, nested, depth + 1).value;
      PrintedIsNoImage(c, w);
      assert RoundTrips(c, w);
    }
  }

  lemma {:induction false} ItemsIdempotent(c: Codec, items: seq<Value>, depth: nat)
    requires JsonCodec(c)
    ensures StripItems(c, StripItems(c, items, depth).0, depth) == (StripItems(c, items, depth).0, [], 0)
    decreases MAX_DEPTH + 1 - depth, |items| + 1
  {
    if items != [] {
      var n := |items| - 1;
      var cleaned := StripItems(c, items, depth).0;
      ItemsIdempotent(c, items[..n], depth);
      StripIsIdempotent(c, items[n], depth);
      assert cleaned[..n] == StripItems(c, items[..n], depth).0;
    }
  }

  lemma {:induction false} ObjectIdempotent(c: Codec, fields: Fields, depth: nat)
    requires JsonCodec(c) && depth <= MAX_DEPTH
    ensures var w := Strip(c, Obj(fields), depth).value;
            Strip(c, w, depth) == Stripped(w, [], 0)
    decreases MAX_DEPTH - depth, 1
  {
    hide ImageFromObject;
    if ImageFromObject(fields).Some? {
      MarkerObjectIsNoImage();
    } else if "content" in fields {
      StripIsIdempotent(c, fields["content"], depth + 1);
      var r := Strip(c, fields["content"], depth + 1);
      ContentPlaysNoPart(fields, r.value);
      StripCounts(c, fields["content"], depth + 1);
    }
  }

  lemma MarkerObjectIsNoImage()
    ensures MarkerObject().Obj? && ImageFromObject(MarkerObject().fields) == None && "content" !in MarkerObject().fields
  {
  }

  // ---------- everything else is unchanged ----------

  /** One step down: into an array element, into an object's content, or into the JSON a string holds. */
  datatype Move = Element(i: nat) | Content | Inside

  function Down(c: Codec, v: Value, step: Move): Option<Value> {
    match (v, step)
    case (Arr(items), Element(i)) => if i < |items| then Some(items[i]) else None
    case (Obj(fields), Content) => if "content" in fields then Some(fields["content"]) else None
    case (Str(s), Inside) => c.decode(s)
    case _ => None
  }

  /** The value at the end of a path; None when the path leaves the value or enters an image. */
  function At(c: Codec, v: Value, path: seq<Move>): Option<Value>
    decreases |path|
  {
    if path == [] then Some(v)
    else if IsImage(v) then None
    else
      match Down(c, v, path[0])
      case None => None
      case Some(w) => At(c, w, path[1..])
  }

  predicate IsImage(v: Value) {
    match v
    case Str(s) => ImageFromDataURL(s).Some?
    case Obj(fields) => ImageFromObject(fields).Some?
    case _ => false
  }

  /**
   Stripping commutes with walking down: what stands at the end of a path afterwards is the stripped form of what
   stood there before. Nothing is moved, dropped or reordered, through arrays, objects and nested JSON text alike.
   */
  lemma {:induction false} StripKeepsPlaces(c: Codec, v: Value, depth: nat, path: seq<Move>)
    requires JsonCodec(c) && At(c, v, path).Some?
    ensures At(c, Strip(c, v, depth).value, path) == Some(Strip(c, At(c, v, path).value, depth + |path|).value)
    decreases |path|
  {
    hide Strip, IsImage, Down, JsonCodec;
    if path != [] {
      var w := Down(c, v, path[0]).value;
      StripKeepsPlaces(c, w, depth + 1, path[1..]);
      StripOneDown(c, v, depth, path[0]);
    }
  }

  lemma StripOneDown(c: Codec, v: Value, depth: nat, step: Move)
    requires JsonCodec(c) && !IsImage(v) && Down(c, v, step).Some?
    ensures var w := Strip(c, v, depth).value;
            !IsImage(w) && Down(c, w, step) == Some(Strip(c, Down(c, v, step).value, depth + 1).value)
  {
    hide ImageFromDataURL, ImageFromObject;
    if depth <= MAX_DEPTH {
      match v {
        case Str(s) =>
          var nested := c.decode(s).value;
          StripCounts(c, nested, depth + 1);
          var w := Strip(c, nested, depth + 1).value;
          assert RoundTrips(c, w);
          PrintedIsNoImage(c, w);
        case Arr(items) => ItemStripped(c, items, depth + 1, step.i);
        case Obj(fields) =>
          StripCounts(c, fields["content"], depth + 1);
          ContentPlaysNoPart(fields, Strip(c, fields["content"], depth + 1).value);
        case _ =>
      }
    }
  }

  lemma {:induction false} ItemStripped(c: Codec, items: seq<Value>, depth: nat, i: nat)
    requires i < |items|
    ensures StripItems(c, items, depth).0[i] == Strip(c, items[i], depth).value
  {
    if i < |items| - 1 {
      ItemStripped(c, items[..|items| - 1], depth, i);
    }
  }

  /** An object keeps its keys and every field but "content". */
  lemma ObjectKeepsFields(c: Codec, fields: Fields, depth: nat)
    requires !IsImage(Obj(fields))
    ensures var w := Strip(c, Obj(fields), depth).value;
            && w.Obj? && w.fields.Keys == fields.Keys
            && forall k :: k in fields && k != "content" ==> w.fields[k] == fields[k]
  {
  }

  // ---------- tool outputs ----------

  datatype Plan = Plan(content: string, output: Value, media: seq<ChatPart>)

  /** planToolOutputMedia: the cleaned text and value of a tool output and its images, or None when it has none. */
  function PlanToolOutputMedia(c: Codec, raw: Option<Value>): Option<Plan> {
    if raw.None? then None
    else if raw.value.Str? then
      var text := raw.value.s;
      if ImageFromDataURL(text).Some? then Some(Plan(MARKER, Str(MARKER), [ImageFromDataURL(text).value]))
      else
        match c.decode(text)
        case None => None
        case Some(nested) =>
          var r := Strip(c, nested, 0);
          if r.count == 0 then None else Some(Plan(c.encode(r.value), Str(c.encode(r.value)), r.media))
    else
      var r := Strip(c, raw.value, 0);
      if r.count == 0 then None else Some(Plan(c.encode(r.value), r.value, r.media))
  }

  /** A plan always moves at least one image, and planning its own output again finds nothing. */
  lemma PlanIsFinal(c: Codec, raw: Option<Value>)
    requires JsonCodec(c) && PlanToolOutputMedia(c, raw).Some?
    ensures var plan := PlanToolOutputMedia(c, raw).value;
            plan.media != [] && PlanToolOutputMedia(c, Some(plan.output)) == None
  {
    hide ImageFromDataURL, ImageFromObject;
    if raw.value.Str? {
      var text := raw.value.s;
      if ImageFromDataURL(text).Some? {
        MarkerIsNoImage();
      } else {
        var nested := c.decode(text).value;
        var w := Strip(c, nested, 0).value;
        StripCounts(c, nested, 0);
        StripIsIdempotent(c, nested, 0);
        PrintedIsNoImage(c, w);
        assert RoundTrips(c, w);
      }
    } else {
      StripCounts(c, raw.value, 0);
      StripIsIdempotent(c, raw.value, 0);
      StripKeepsKind(c, raw.value);
    }
  }

  lemma StripKeepsKind(c: Codec, v: Value)
    requires !v.Str?
    ensures !Strip(c, v, 0).value.Str?
  {
  }
}
