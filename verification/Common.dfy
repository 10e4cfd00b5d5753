/** Small value types shared by every component. */
module Common {

  datatype Option<+T> = None | Some(value: T)

  datatype Result<+T, +E> = Ok(value: T) | Err(error: E)

  predicate HasPrefix(s: string, p: string) { |p| <= |s| && s[..|p|] == p }

  predicate HasSuffix(s: string, p: string) { |p| <= |s| && s[|s| - |p|..] == p }

  /** The characters unicode.IsSpace reports as white space, the ones strings.TrimSpace removes. */
  predicate IsSpace(c: char) {
    var n := c as int;
    || 9 <= n <= 13 || n == 32 || n == 0x85 || n == 0xA0 || n == 0x1680
    || 0x2000 <= n <= 0x200A || n == 0x2028 || n == 0x2029 || n == 0x202F || n == 0x205F || n == 0x3000
  }

  function TrimLeft(s: string): string {
    if s != "" && IsSpace(s[0]) then TrimLeft(s[1..]) else s
  }

  function TrimRight(s: string): string {
    if s != "" && IsSpace(s[|s| - 1]) then TrimRight(s[..|s| - 1]) else s
  }

  function TrimSpace(s: string): string {
    TrimRight(TrimLeft(s))
  }

  predicate AllSpace(s: string) { forall i :: 0 <= i < |s| ==> IsSpace(s[i]) }

  /** `t` is `s` without the white space at its ends. */
  ghost predicate IsTrimmed(s: string, t: string) {
    && (t != "" ==> !IsSpace(t[0]) && !IsSpace(t[|t| - 1]))
    && exists a, b: string :: AllSpace(a) && AllSpace(b) && s == a + t + b
  }

  lemma {:induction false} TrimLeftIs(s: string)
    ensures var t := TrimLeft(s);
            && |t| <= |s| && s[|s| - |t|..] == t && AllSpace(s[..|s| - |t|]) && (t != "" ==> !IsSpace(t[0]))
  {
    hide IsSpace;
    if s != "" && IsSpace(s[0]) {
      TrimLeftIs(s[1..]);
      var t := TrimLeft(s[1..]);
      assert s[..|s| - |t|] == [s[0]] + s[1..][..|s| - 1 - |t|];
    }
  }

  lemma {:induction false} TrimRightIs(s: string)
    ensures var t := TrimRight(s);
            && |t| <= |s| && s[..|t|] == t && AllSpace(s[|t|..]) && (t != "" ==> !IsSpace(t[|t| - 1]))
  {
    hide IsSpace;
    if s != "" && IsSpace(s[|s| - 1]) {
      TrimRightIs(s[..|s| - 1]);
      var t := TrimRight(s[..|s| - 1]);
      assert s[|t|..] == s[..|s| - 1][|t|..] + [s[|s| - 1]];
    }
  }

  /** strings.TrimSpace removes the white space at both ends and nothing else. */
  lemma TrimIs(s: string)
    ensures IsTrimmed(s, TrimSpace(s))
  {
    hide IsSpace, TrimLeft, TrimRight;
    TrimLeftIs(s);
    TrimRightIs(TrimLeft(s));
    var l, t := TrimLeft(s), TrimSpace(s);
    assert s == s[..|s| - |l|] + t + l[|t|..];
  }

  /** A text that is white space alone trims to nothing, and no other. */
  lemma TrimsToNothing(s: string)
    ensures TrimSpace(s) == "" <==> AllSpace(s)
  {
    hide IsSpace, TrimLeft, TrimRight;
    TrimLeftIs(s);
    TrimRightIs(TrimLeft(s));
    var l, t := TrimLeft(s), TrimSpace(s);
    assert s == s[..|s| - |l|] + t + l[|t|..];
    if t != "" {
      assert s[|s| - |l|] == t[0];
    }
  }

  /** A text without white space at either end is left alone by trimming. */
  lemma TrimSpaceOfTrimmed(s: string)
    requires s != "" && !IsSpace(s[0]) && !IsSpace(s[|s| - 1])
    ensures TrimSpace(s) == s
  {
  }

  function Digits(n: nat): (s: string)
    ensures s != ""
  {
    if n < 10 then [('0' as int + n) as char]
    else Digits(n / 10) + [('0' as int + n % 10) as char]
  }

  /** Decimal text of an integer, as strconv.Itoa. */
  function Itoa(n: int): string {
    if n < 0 then "-" + Digits(-n) else Digits(n)
  }

  /** Different numbers have different decimal texts. */
  lemma {:induction false} DigitsDiffer(a: nat, b: nat)
    requires Digits(a) == Digits(b)
    ensures a == b
  {
    if a >= 10 && b >= 10 {
      var s, t := Digits(a), Digits(b);
      assert s[..|s| - 1] == Digits(a / 10) && t[..|t| - 1] == Digits(b / 10);
      assert s[|s| - 1] == t[|t| - 1];
      DigitsDiffer(a / 10, b / 10);
    } else if a < 10 && b < 10 {
      assert Digits(a)[0] == Digits(b)[0];
    }
  }
}
