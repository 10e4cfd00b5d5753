/** Matching model names against patterns in which "*" stands for any text. (config/config.go globMatch) */
module Glob {
  import opened Common

  /** `p` stands in `s` at `i`. */
  predicate OccursAt(s: string, p: string, i: nat) { i + |p| <= |s| && s[i..i + |p|] == p }

  function IndexFrom(s: string, p: string, i: nat): (r: Option<nat>)
    requires i <= |s|
    ensures r.Some? ==> i <= r.value && OccursAt(s, p, r.value) && forall j: nat :: i <= j < r.value ==>
        !OccursAt(s, p, j)
    ensures r.None? ==> forall j: nat :: i <= j ==> !OccursAt(s, p, j)
    decreases |s| - i
  {
    if OccursAt(s, p, i) then Some(i) else if i == |s| then None else IndexFrom(s, p, i + 1)
  }

  /** strings.Split(pattern, "*"): the pieces between the stars. */
  function Pieces(pattern: string): (r: seq<string>)
    ensures |r| >= 1
    ensures |r| == 1 <==> '*' !in pattern
    ensures forall i :: 0 <= i < |r| ==> '*' !in r[i]
  {
    if pattern == "" then [""]
    else
      var rest := Pieces(pattern[1..]);
      if pattern[0] == '*' then [""] + rest else [[pattern[0]] + rest[0]] + rest[1..]
  }

  // ---------- what a match is ----------

  /** Character by character: a star takes any number of characters, anything else itself. */
  ghost predicate Matches(pattern: string, s: string) {
    if pattern == "" then s == ""
    else if pattern[0] == '*' then exists k :: 0 <= k <= |s| && Matches(pattern[1..], s[k..])
    else s != "" && s[0] == pattern[0] && Matches(pattern[1..], s[1..])
  }

  /** The pieces with the texts `xs` put in for the stars. */
  function Filled(pieces: seq<string>, xs: seq<string>): string
    requires |pieces| == |xs| + 1
  {
    if xs == [] then pieces[0] else pieces[0] + xs[0] + Filled(pieces[1..], xs[1..])
  }

  ghost predicate FillsTo(pieces: seq<string>, s: string)
    requires |pieces| >= 1
  {
    exists xs: seq<string> :: |pieces| == |xs| + 1 && Filled(pieces, xs) == s
  }

  /** A star and then the pieces: some rest of `s` is filled by them. */
  ghost predicate Found(pieces: seq<string>, s: string)
    requires |pieces| >= 1
  {
    exists k :: 0 <= k <= |s| && FillsTo(pieces, s[k..])
  }

  // ---------- leftmost is enough ----------

  /** More text in front never hurts: what is found in a rest of `s` is found in `s`. */
  lemma FoundInRest(pieces: seq<string>, s: string, i: nat)
    requires |pieces| >= 1 && i <= |s| && Found(pieces, s[i..])
    ensures Found(pieces, s)
  {
    hide FillsTo;
    var k :| 0 <= k <= |s[i..]| && FillsTo(pieces, s[i..][k..]);
    assert s[i..][k..] == s[i + k..];
  }

  lemma ThreeParts(s: string, p: string, x: string, rest: string)
    requires s == p + x + rest
    ensures HasPrefix(s, p) && s[|p|..] == x + rest && s[|p|..][|x|..] == rest
  {
    assert s == p + (x + rest);
  }

  lemma ThreePartsBack(s: string, p: string, k: nat)
    requires HasPrefix(s, p) && k <= |s[|p|..]|
    ensures s == p + s[|p|..][..k] + s[|p|..][k..]
  {
    assert s == s[..|p|] + s[|p|..];
  }

  lemma FrontOfFilled(pieces: seq<string>, s: string)
    requires |pieces| >= 2 && FillsTo(pieces, s)
    ensures HasPrefix(s, pieces[0]) && Found(pieces[1..], s[|pieces[0]|..])
  {
    var xs: seq<string> :| |pieces| == |xs| + 1 && Filled(pieces, xs) == s;
    ThreeParts(s, pieces[0], xs[0], Filled(pieces[1..], xs[1..]));
  }

  lemma FilledFromFront(pieces: seq<string>, s: string)
    requires |pieces| >= 2 && HasPrefix(s, pieces[0]) && Found(pieces[1..], s[|pieces[0]|..])
    ensures FillsTo(pieces, s)
  {
    var p := pieces[0];
    var rest := s[|p|..];
    var k :| 0 <= k <= |rest| && FillsTo(pieces[1..], rest[k..]);
    var xs: seq<string> :| |pieces[1..]| == |xs| + 1 && Filled(pieces[1..], xs) == rest[k..];
    ThreePartsBack(s, p, k);
    FilledMore(pieces, rest[..k], xs);
  }

  /** The first piece stands in front, the others are found after it. */
  lemma FilledSplits(pieces: seq<string>, s: string)
    requires |pieces| >= 2
    ensures FillsTo(pieces, s) <==> HasPrefix(s, pieces[0]) && Found(pieces[1..], s[|pieces[0]|..])
  {
    if FillsTo(pieces, s) { FrontOfFilled(pieces, s); }
    if HasPrefix(s, pieces[0]) && Found(pieces[1..], s[|pieces[0]|..]) { FilledFromFront(pieces, s); }
  }

  lemma FilledMore(pieces: seq<string>, x: string, xs: seq<string>)
    requires |pieces| == |xs| + 2
    ensures Filled(pieces, [x] + xs) == pieces[0] + x + Filled(pieces[1..], xs)
  {
    assert ([x] + xs)[1..] == xs;
  }

  /** If the pieces can be found at all, they can be found with the first one in its leftmost place. */
  lemma LeftmostSuffices(pieces: seq<string>, s: string)
    requires |pieces| >= 2
    ensures var i := IndexFrom(s, pieces[0], 0);
            Found(pieces, s) <==> i.Some? && Found(pieces[1..], s[i.value + |pieces[0]|..])
  {
    hide FillsTo, IndexFrom;
    var p := pieces[0];
    var i := IndexFrom(s, p, 0);
    if Found(pieces, s) {
      var k :| 0 <= k <= |s| && FillsTo(pieces, s[k..]);
      FilledSplits(pieces, s[k..]);
      assert s[k..][..|p|] == s[k..k + |p|] && s[k..][|p|..] == s[k + |p|..];
      assert OccursAt(s, p, k);
      assert s[i.value + |p|..][k - i.value..] == s[k + |p|..];
      FoundInRest(pieces[1..], s[i.value + |p|..], k - i.value);
    }
    if i.Some? && Found(pieces[1..], s[i.value + |p|..]) {
      var k := i.value;
      assert s[k..][..|p|] == s[k..k + |p|] && s[k..][|p|..] == s[k + |p|..];
      FilledSplits(pieces, s[k..]);
    }
  }

  lemma FoundLast(p: string, s: string)
    ensures Found([p], s) <==> HasSuffix(s, p)
  {
    forall k | 0 <= k <= |s| ensures FillsTo([p], s[k..]) <==> s[k..] == p { FilledAlone(p, s[k..]); }
  }

  // ---------- the two readings agree ----------

  lemma FilledAlone(p: string, s: string)
    ensures FillsTo([p], s) <==> s == p
  {
    assert Filled([p], []) == p;
  }

  /** Filling the pieces of a pattern is matching it character by character. */
  lemma {:induction false} FilledIsMatch(pattern: string, s: string)
    ensures FillsTo(Pieces(pattern), s) <==> Matches(pattern, s)
  {
    if pattern == "" {
      FilledAlone("", s);
    } else if pattern[0] == '*' {
      StarFilled(pattern[1..], s);
      forall k | 0 <= k <= |s| ensures FillsTo(Pieces(pattern[1..]), s[k..]) <==> Matches(pattern[1..], s[k..]) {
        FilledIsMatch(pattern[1..], s[k..]);
      }
    } else {
      if s != "" { FilledIsMatch(pattern[1..], s[1..]); }
      LetterFilled(pattern[0], Pieces(pattern[1..]), s);
    }
  }

  lemma StarFilled(rest: string, s: string)
    ensures FillsTo([""] + Pieces(rest), s) <==> exists k :: 0 <= k <= |s| && FillsTo(Pieces(rest), s[k..])
  {
    hide FillsTo;
    var pieces := [""] + Pieces(rest);
    assert pieces[1..] == Pieces(rest) && s[0..] == s;
    FilledSplits(pieces, s);
  }

  lemma LetterFilled(c: char, pieces: seq<string>, s: string)
    requires |pieces| >= 1
    ensures FillsTo([[c] + pieces[0]] + pieces[1..], s) <==> s != "" && s[0] == c && FillsTo(pieces, s[1..])
  {
    var longer := [[c] + pieces[0]] + pieces[1..];
    forall xs: seq<string> | |pieces| == |xs| + 1 ensures Filled(longer, xs) == [c] + Filled(pieces, xs) {
      assert longer[1..] == pieces[1..];
      if xs != [] {
        assert [c] + pieces[0] + xs[0] + Filled(pieces[1..], xs[1..])
            == [c] + (pieces[0] + xs[0] + Filled(pieces[1..], xs[1..]));
      }
    }
    if FillsTo(longer, s) {
      var xs :| |longer| == |xs| + 1 && Filled(longer, xs) == s;
      assert s[1..] == Filled(pieces, xs);
    }
    if s != "" && s[0] == c && FillsTo(pieces, s[1..]) {
      var xs :| |pieces| == |xs| + 1 && Filled(pieces, xs) == s[1..];
      assert s == [c] + s[1..];
      assert Filled(longer, xs) == s;
    }
  }

  // ---------- the algorithm ----------

  /** Greedy leftmost search decides both: the pieces fill up to `s`, and `s` matches character by character. */
  method GlobMatch(pattern: string, s: string) returns (found: bool)
    ensures found <==> FillsTo(Pieces(pattern), s)
    ensures found <==> Matches(pattern, s)
  {
    hide FillsTo, Found, Matches, HasPrefix, HasSuffix, OccursAt;
    FilledIsMatch(pattern, s);
    var parts := Pieces(pattern);
    var n := |parts|;
    if n == 1 {
      OnePiece(pattern);
      FilledAlone(pattern, s);
      return pattern == s;
    }
    FilledSplits(parts, s);
    if !HasPrefix(s, parts[0]) {
      return false;
    }
    PrefixFits(s, parts[0]);
    var rest := s[|parts[0]|..];
    for i := 1 to n - 1
      invariant FillsTo(parts, s) <==> Found(parts[i..], rest)
    {
      var p := parts[i];
      assert parts[i..][0] == p && parts[i..][1..] == parts[i + 1..];
      LeftmostSuffices(parts[i..], rest);
      var idx := IndexFrom(rest, p, 0);
      if idx.None? {
        return false;
      }
      OccursFits(rest, p, idx.value);
      rest := rest[idx.value + |p|..];
    }
    assert parts[n - 1..] == [parts[n - 1]];
    FoundLast(parts[n - 1], rest);
    return HasSuffix(rest, parts[n - 1]);
  }

  lemma PrefixFits(s: string, p: string)
    requires HasPrefix(s, p)
    ensures |p| <= |s|
  {
  }

  lemma OccursFits(s: string, p: string, i: nat)
    requires OccursAt(s, p, i)
    ensures i + |p| <= |s|
  {
  }

  lemma {:induction false} OnePiece(pattern: string)
    requires |Pieces(pattern)| == 1
    ensures Pieces(pattern) == [pattern]
  {
    if pattern != "" {
      OnePiece(pattern[1..]);
      assert pattern == [pattern[0]] + pattern[1..];
    }
  }
}
