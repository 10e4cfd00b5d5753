/**
 Which images stripping finds: exactly those that can be reached within the depth bound, each once, in the order they
 are met. (convert/request_media.go stripToolImages)
 */
module MediaPaths {
  import opened Common
  import opened Json
  import opened Media

  type Path = seq<Move>

  function ImageOf(v: Value): ChatPart
    requires IsImage(v)
  {
    if v.Str? then ImageFromDataURL(v.s).value else ImageFromObject(v.fields).value
  }

  /** Where the marker of an image stands afterwards. */
  function MarkerFor(v: Value): Value { if v.Str? then Str(MARKER) else MarkerObject() }

  /** A path to an image within the depth bound. */
  predicate LeadsToImage(c: Codec, v: Value, depth: nat, p: Path) {
    depth + |p| <= MAX_DEPTH && At(c, v, p).Some? && IsImage(At(c, v, p).value)
  }

  /** `p` is met before `q`: where they part, it takes the earlier element. */
  predicate Before(p: Path, q: Path) {
    && p != [] && q != []
    && if p[0] == q[0] then Before(p[1..], q[1..]) else p[0].Element? && q[0].Element? && p[0].i < q[0].i
  }

  function Prefixed(step: Move, ps: seq<Path>): (r: seq<Path>)
    ensures |r| == |ps|
  {
    seq(|ps|, i requires 0 <= i < |ps| => [step] + ps[i])
  }

  function Paths(c: Codec, v: Value, depth: nat): seq<Path>
    decreases MAX_DEPTH + 1 - depth, 0
  {
    if depth > MAX_DEPTH then []
    else if IsImage(v) then [[]]
    else
      match v
      case Str(s) =>
        (match c.decode(s)
         case None => []
         case Some(nested) => Prefixed(Inside, Paths(c, nested, depth + 1)))
      case Arr(items) => ItemPaths(c, items, depth + 1)
      case Obj(fields) =>
        if "content" in fields then Prefixed(Content, Paths(c, fields["content"], depth + 1)) else []
      case _ => []
  }

  function ItemPaths(c: Codec, items: seq<Value>, depth: nat): seq<Path>
    decreases MAX_DEPTH + 1 - depth, |items| + 1
  {
    if items == [] then []
    else
      var n := |items| - 1;
      ItemPaths(c, items[..n], depth) + Prefixed(Element(n), Paths(c, items[n], depth))
  }

  // ---------- the media list ----------

  /** The images at the ends of some paths. */
  ghost predicate ShowsPaths(c: Codec, v: Value, ps: seq<Path>, media: seq<ChatPart>) {
    && |ps| == |media|
    && forall i :: 0 <= i < |ps| ==> ShowsPath(c, v, ps[i], media[i])
  }

  ghost predicate ShowsPath(c: Codec, v: Value, p: Path, image: ChatPart) {
    At(c, v, p).Some? && IsImage(At(c, v, p).value) && image == ImageOf(At(c, v, p).value)
  }

  lemma ShownBelow(c: Codec, v: Value, step: Move, p: Path, image: ChatPart)
    requires !IsImage(v) && Down(c, v, step).Some? && ShowsPath(c, Down(c, v, step).value, p, image)
    ensures ShowsPath(c, v, [step] + p, image)
  {
    hide IsImage, Down, ImageOf;
    assert ([step] + p)[1..] == p;
  }

  lemma PathsBelow(c: Codec, v: Value, step: Move, ps: seq<Path>, media: seq<ChatPart>)
    requires !IsImage(v) && Down(c, v, step).Some? && ShowsPaths(c, Down(c, v, step).value, ps, media)
    ensures ShowsPaths(c, v, Prefixed(step, ps), media)
  {
    hide IsImage, Down, ShowsPath;
    forall i | 0 <= i < |ps| ensures ShowsPath(c, v, Prefixed(step, ps)[i], media[i]) {
      ShownBelow(c, v, step, ps[i], media[i]);
    }
  }

  lemma {:induction false} PathsAreMedia(c: Codec, v: Value, depth: nat)
    ensures ShowsPaths(c, v, Paths(c, v, depth), Strip(c, v, depth).media)
    decreases MAX_DEPTH + 1 - depth, 0
  {
    hide ImageFromDataURL, ImageFromObject, ShowsPaths;
    if depth > MAX_DEPTH {
      NothingShown(c, v);
    } else if IsImage(v) {
      OneShown(c, v, depth);
    } else {
      match v
      case Str(s) =>
        if c.decode(s).Some? {
          var nested := c.decode(s).value;
          PathsAreMedia(c, nested, depth + 1);
          PathsBelow(c, v, Inside, Paths(c, nested, depth + 1), Strip(c, nested, depth + 1).media);
          StripCounts(c, nested, depth + 1);
        } else {
          NothingShown(c, v);
        }
      case Arr(items) => ItemsAreMedia(c, items, depth + 1, items);
      case Obj(fields) =>
        if "content" in fields {
          PathsAreMedia(c, fields["content"], depth + 1);
          PathsBelow(c, v, Content, Paths(c, fields["content"], depth + 1),
                     Strip(c, fields["content"], depth + 1).media);
        } else {
          NothingShown(c, v);
        }
      case _ => NothingShown(c, v);
    }
  }

  lemma NothingShown(c: Codec, v: Value)
    ensures ShowsPaths(c, v, [], [])
  {
  }

  lemma OneShown(c: Codec, v: Value, depth: nat)
    requires IsImage(v) && depth <= MAX_DEPTH
    ensures Strip(c, v, depth) == Stripped(MarkerFor(v), [ImageOf(v)], 1) && ShowsPaths(c, v, [[]], [ImageOf(v)])
  {
    hide ImageFromDataURL, ImageFromObject;
  }

  lemma {:induction false} ItemsAreMedia(c: Codec, items: seq<Value>, depth: nat, whole: seq<Value>)
    requires items <= whole
    ensures ShowsPaths(c, Arr(whole), ItemPaths(c, items, depth), StripItems(c, items, depth).1)
    decreases MAX_DEPTH + 1 - depth, |items| + 1
  {
    hide ShowsPaths;
    if items == [] {
      NothingShown(c, Arr(whole));
    } else {
      var n := |items| - 1;
      ItemsAreMedia(c, items[..n], depth, whole);
      PathsAreMedia(c, items[n], depth);
      PathsBelow(c, Arr(whole), Element(n), Paths(c, items[n], depth), Strip(c, items[n], depth).media);
      ShownTogether(c, Arr(whole), ItemPaths(c, items[..n], depth), StripItems(c, items[..n], depth).1,
                    Prefixed(Element(n), Paths(c, items[n], depth)), Strip(c, items[n], depth).media);
    }
  }

  lemma ShownTogether(c: Codec, v: Value, ps: seq<Path>, a: seq<ChatPart>, qs: seq<Path>, b: seq<ChatPart>)
    requires ShowsPaths(c, v, ps, a) && ShowsPaths(c, v, qs, b)
    ensures ShowsPaths(c, v, ps + qs, a + b)
  {
    hide ShowsPath;
  }

  // ---------- every image, once, in order ----------

  lemma InPrefixed(step: Move, ps: seq<Path>, p: Path)
    ensures p in Prefixed(step, ps) <==> p != [] && p[0] == step && p[1..] in ps
  {
    var r := Prefixed(step, ps);
    if p in r {
      var i :| 0 <= i < |r| && r[i] == p;
      assert p == [step] + ps[i] && p[1..] == ps[i];
    }
    if p != [] && p[0] == step && p[1..] in ps {
      var i :| 0 <= i < |ps| && ps[i] == p[1..];
      assert r[i] == [step] + p[1..] == p;
    }
  }

  lemma {:induction false} PathsComplete(c: Codec, v: Value, depth: nat, p: Path)
    ensures p in Paths(c, v, depth) <==> LeadsToImage(c, v, depth, p)
    decreases MAX_DEPTH + 1 - depth, 0
  {
    hide ImageFromDataURL, ImageFromObject;
    if depth <= MAX_DEPTH && !IsImage(v) {
      match v
      case Str(s) =>
        if c.decode(s).Some? {
          InPrefixed(Inside, Paths(c, c.decode(s).value, depth + 1), p);
          if p != [] { PathsComplete(c, c.decode(s).value, depth + 1, p[1..]); }
        }
      case Arr(items) =>
        ItemPathsComplete(c, items, depth + 1, p);
      case Obj(fields) =>
        if "content" in fields {
          InPrefixed(Content, Paths(c, fields["content"], depth + 1), p);
          if p != [] { PathsComplete(c, fields["content"], depth + 1, p[1..]); }
        }
      case _ =>
    }
  }

  lemma {:induction false} ItemPathsComplete(c: Codec, items: seq<Value>, depth: nat, p: Path)
    ensures p in ItemPaths(c, items, depth)
            <==> p != [] && p[0].Element? && p[0].i < |items| && LeadsToImage(c, items[p[0].i], depth, p[1..])
    decreases MAX_DEPTH + 1 - depth, |items| + 1
  {
    hide LeadsToImage, Paths;
    if items != [] {
      var n := |items| - 1;
      ItemPathsComplete(c, items[..n], depth, p);
      InPrefixed(Element(n), Paths(c, items[n], depth), p);
      if p != [] { PathsComplete(c, items[n], depth, p[1..]); }
    }
  }

  ghost predicate InOrder(ps: seq<Path>) {
    forall i, j :: 0 <= i < j < |ps| ==> Before(ps[i], ps[j])
  }

  lemma PrefixedInOrder(step: Move, ps: seq<Path>)
    requires InOrder(ps)
    ensures InOrder(Prefixed(step, ps))
  {
    forall i, j | 0 <= i < j < |ps| ensures Before(Prefixed(step, ps)[i], Prefixed(step, ps)[j]) {
      assert ([step] + ps[i])[1..] == ps[i] && ([step] + ps[j])[1..] == ps[j];
    }
  }

  lemma {:induction false} PathsInOrder(c: Codec, v: Value, depth: nat)
    ensures InOrder(Paths(c, v, depth))
    decreases MAX_DEPTH + 1 - depth, 0
  {
    hide Before, IsImage;
    if depth <= MAX_DEPTH && !IsImage(v) {
      match v
      case Str(s) =>
        if c.decode(s).Some? {
          PathsInOrder(c, c.decode(s).value, depth + 1);
          PrefixedInOrder(Inside, Paths(c, c.decode(s).value, depth + 1));
        }
      case Arr(items) => ItemPathsInOrder(c, items, depth + 1);
      case Obj(fields) =>
        if "content" in fields {
          PathsInOrder(c, fields["content"], depth + 1);
          PrefixedInOrder(Content, Paths(c, fields["content"], depth + 1));
        }
      case _ =>
    }
  }

  lemma {:induction false} ItemPathsInOrder(c: Codec, items: seq<Value>, depth: nat)
    ensures InOrder(ItemPaths(c, items, depth))
    decreases MAX_DEPTH + 1 - depth, |items| + 1
  {
    hide Before, LeadsToImage;
    if items != [] {
      var n := |items| - 1;
      var front, last := ItemPaths(c, items[..n], depth), Prefixed(Element(n), Paths(c, items[n], depth));
      ItemPathsInOrder(c, items[..n], depth);
      PathsInOrder(c, items[n], depth);
      PrefixedInOrder(Element(n), Paths(c, items[n], depth));
      forall i, j | 0 <= i < |front| && 0 <= j < |last| ensures Before(front[i], last[j]) {
        ItemPathsComplete(c, items[..n], depth, front[i]);
        assert front[i] in front;
        EarlierElement(front[i], last[j], n);
      }
    }
  }

  lemma EarlierElement(p: Path, q: Path, n: nat)
    requires p != [] && p[0].Element? && p[0].i < n && q != [] && q[0] == Element(n)
    ensures Before(p, q)
  {
  }

  /**
   Stripping a tool output finds exactly the images that can be reached within the depth bound, through arrays, object
   contents and nested JSON texts: the media list shows the image at each such path once, in the order the paths are
   met, and a marker stands at each of them afterwards.
   */
  lemma EveryImageOnce(c: Codec, v: Value)
    requires JsonCodec(c)
    ensures var r, ps := Strip(c, v, 0), Paths(c, v, 0);
            && |ps| == |r.media| == r.count
            && (forall p :: p in ps <==> LeadsToImage(c, v, 0, p))
            && InOrder(ps)
            && forall i :: 0 <= i < |ps| ==>
                 ShowsPath(c, v, ps[i], r.media[i]) && At(c, r.value, ps[i]) == Some(MarkerFor(At(c, v, ps[i]).value))
  {
    hide Strip, Paths, IsImage, ImageOf, MarkerFor, JsonCodec, LeadsToImage, InOrder;
    var r, ps := Strip(c, v, 0), Paths(c, v, 0);
    PathsAreMedia(c, v, 0);
    StripCounts(c, v, 0);
    PathsInOrder(c, v, 0);
    forall p ensures p in ps <==> LeadsToImage(c, v, 0, p) { PathsComplete(c, v, 0, p); }
    forall i | 0 <= i < |ps| ensures At(c, r.value, ps[i]) == Some(MarkerFor(At(c, v, ps[i]).value)) {
      assert ShowsPath(c, v, ps[i], r.media[i]);
      assert ps[i] in ps;
      WithinDepth(c, v, ps[i]);
      StripKeepsPlaces(c, v, 0, ps[i]);
      OneShown(c, At(c, v, ps[i]).value, |ps[i]|);
    }
  }

  lemma WithinDepth(c: Codec, v: Value, p: Path)
    requires LeadsToImage(c, v, 0, p)
    ensures |p| <= MAX_DEPTH
  {
  }
}
