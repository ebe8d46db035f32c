/** The small part of Python's string library the reading pipeline relies on:
    `str.isspace`, `str.strip`, `str(n)` for naturals, zero-padded fields as
    produced by `strftime`, and substring occurrence. */
module Text {

  // ---------------------------------------------------------------------------
  // Whitespace and strip()
  // ---------------------------------------------------------------------------

  /** Python's `str.isspace()` on one character: the ASCII controls TAB..CR,
      the separators 0x1C..0x1F, SPACE, and the Unicode space characters. */
  predicate IsSpace(c: char) {
    var n := c as int;
    || (0x09 <= n <= 0x0D)
    || (0x1C <= n <= 0x20)
    || n == 0x85 || n == 0xA0 || n == 0x1680
    || (0x2000 <= n <= 0x200A)
    || n == 0x2028 || n == 0x2029 || n == 0x202F || n == 0x205F || n == 0x3000
  }

  predicate AllSpace(s: string) {
    forall i :: 0 <= i < |s| ==> IsSpace(s[i])
  }

  /** `r` sits at offset `a` of `s`, everything around it is whitespace, and
      `r` itself neither begins nor ends with whitespace. */
  predicate Framed(s: string, r: string, a: nat) {
    && a + |r| <= |s|
    && s[a..a + |r|] == r
    && AllSpace(s[..a])
    && AllSpace(s[a + |r|..])
    && (|r| == 0 || (!IsSpace(r[0]) && !IsSpace(r[|r| - 1])))
  }

  /** `s.lstrip()`: the longest suffix of `s` that does not start with whitespace. */
  function StripLeading(s: string): (r: string)
    ensures |r| <= |s| && r == s[|s| - |r|..]
    ensures AllSpace(s[..|s| - |r|])
    ensures |r| == 0 || !IsSpace(r[0])
  {
    if |s| > 0 && IsSpace(s[0]) then StripLeading(s[1..]) else s
  }

  /** `s.rstrip()`: the longest prefix of `s` that does not end with whitespace. */
  function StripTrailing(s: string): (r: string)
    ensures |r| <= |s| && r == s[..|r|]
    ensures AllSpace(s[|r|..])
    ensures |r| == 0 || !IsSpace(r[|r| - 1])
  {
    if |s| > 0 && IsSpace(s[|s| - 1]) then StripTrailing(s[..|s| - 1]) else s
  }

  /** `s.strip()`: the text left once whitespace is removed from both ends. */
  function Strip(s: string): (r: string)
    ensures exists a: nat :: Framed(s, r, a)
  {
    var t := StripLeading(s);
    var r := StripTrailing(t);
    var a := |s| - |t|;
    assert s[a..a + |r|] == r;
    assert s[a + |r|..] == t[|r|..];
    assert |r| > 0 ==> r[0] == t[0];
    assert Framed(s, r, a);
    r
  }

  /** Stripping text that neither begins nor ends with whitespace changes nothing. */
  lemma StripUnframed(s: string)
    requires |s| > 0 && !IsSpace(s[0]) && !IsSpace(s[|s| - 1])
    ensures Strip(s) == s
  {
  }

  /** What a framing says about single characters of `s`. */
  lemma FramedCharacters(s: string, r: string, a: nat)
    requires Framed(s, r, a)
    ensures forall i :: 0 <= i < a ==> IsSpace(s[i])
    ensures forall i :: a + |r| <= i < |s| ==> IsSpace(s[i])
    ensures |r| > 0 ==> !IsSpace(s[a]) && !IsSpace(s[a + |r| - 1])
  {
    forall i | 0 <= i < a
      ensures IsSpace(s[i])
    {
      assert s[..a][i] == s[i];
    }
    forall i | a + |r| <= i < |s|
      ensures IsSpace(s[i])
    {
      assert s[a + |r|..][i - a - |r|] == s[i];
    }
    if |r| > 0 {
      assert s[a] == r[0] && s[a + |r| - 1] == r[|r| - 1];
    }
  }

  /** The framing of a string is unique, so `Strip` is the only function with
      its contract. */
  lemma FramedUnique(s: string, r1: string, a1: nat, r2: string, a2: nat)
    requires Framed(s, r1, a1) && Framed(s, r2, a2)
    requires |r1| > 0 || |r2| > 0
    ensures a1 == a2 && r1 == r2
  {
    FramedCharacters(s, r1, a1);
    FramedCharacters(s, r2, a2);
  }

  // ---------------------------------------------------------------------------
  // Decimal digits
  // ---------------------------------------------------------------------------

  predicate IsDigit(c: char) {
    '0' <= c <= '9'
  }

  predicate AllDigits(s: string) {
    forall i :: 0 <= i < |s| ==> IsDigit(s[i])
  }

  function DigitValue(c: char): (d: nat)
    requires IsDigit(c)
    ensures d < 10
  {
    c as int - '0' as int
  }

  function DigitChar(d: nat): (c: char)
    requires d < 10
    ensures IsDigit(c) && DigitValue(c) == d
  {
    (d + '0' as int) as char
  }

  function Pow10(w: nat): (p: nat)
    ensures p >= 1
  {
    if w == 0 then 1 else 10 * Pow10(w - 1)
  }

  /** The natural number a string of decimal digits denotes (most significant first). */
  function ParseDigits(s: string): (n: nat)
    requires AllDigits(s)
    ensures n < Pow10(|s|)
  {
    if |s| == 0 then 0 else 10 * ParseDigits(s[..|s| - 1]) + DigitValue(s[|s| - 1])
  }

  lemma ParseDigitsSnoc(s: string, c: char)
    requires AllDigits(s) && IsDigit(c)
    ensures AllDigits(s + [c])
    ensures ParseDigits(s + [c]) == 10 * ParseDigits(s) + DigitValue(c)
  {
    assert (s + [c])[..|s|] == s;
  }

  /** Python's `str(n)` for a natural number: its canonical decimal spelling,
      which reads back as `n` and has no leading zero. */
  function NatToString(n: nat): (r: string)
    ensures |r| >= 1 && AllDigits(r)
    ensures ParseDigits(r) == n
    ensures |r| > 1 ==> r[0] != '0'
    ensures n < 10 <==> |r| == 1
  {
    if n < 10 then [DigitChar(n)]
    else
      var r := NatToString(n / 10) + [DigitChar(n % 10)];
      ParseDigitsSnoc(NatToString(n / 10), DigitChar(n % 10));
      r
  }

  /** `n` written in exactly `width` digits with leading zeros, as `%02d`,
      `%m`, `%H` and friends do. */
  function Fixed(n: nat, width: nat): (r: string)
    requires n < Pow10(width)
    ensures |r| == width && AllDigits(r)
    ensures ParseDigits(r) == n
  {
    if width == 0 then ""
    else
      var r := Fixed(n / 10, width - 1) + [DigitChar(n % 10)];
      ParseDigitsSnoc(Fixed(n / 10, width - 1), DigitChar(n % 10));
      r
  }

  /** Every digit string of length `w` is the fixed-width spelling of its value. */
  lemma {:induction false} FixedOfParse(s: string)
    requires AllDigits(s)
    ensures Fixed(ParseDigits(s), |s|) == s
  {
    if |s| > 0 {
      var init := s[..|s| - 1];
      var n := ParseDigits(s);
      assert n / 10 == ParseDigits(init) && n % 10 == DigitValue(s[|s| - 1]);
      FixedOfParse(init);
      assert DigitChar(n % 10) == s[|s| - 1];
      assert s == init + [s[|s| - 1]];
    }
  }

  /** A number with exactly `w` significant digits prints the same with or
      without zero padding to width `w`. */
  lemma {:induction false} NatToStringFixed(n: nat, w: nat)
    requires w >= 1 && (w == 1 || Pow10(w - 1) <= n) && n < Pow10(w)
    ensures NatToString(n) == Fixed(n, w)
  {
    if w > 1 {
      if w > 2 {
        assert Pow10(w - 2) <= n / 10;
      }
      NatToStringFixed(n / 10, w - 1);
    }
  }

  // ---------------------------------------------------------------------------
  // Substrings
  // ---------------------------------------------------------------------------

  /** `t` occurs in `s` starting at index `k`. */
  predicate OccursAt(s: string, t: string, k: nat) {
    k + |t| <= |s| && s[k..k + |t|] == t
  }

  /** Python's `t in s` for strings. */
  predicate Contains(s: string, t: string) {
    exists k: nat | k <= |s| :: OccursAt(s, t, k)
  }

  /** A string occurs in itself framed by any text. */
  lemma OccursBetween(a: string, t: string, b: string)
    ensures OccursAt(a + t + b, t, |a|)
    ensures Contains(a + t + b, t)
  {
    assert (a + t + b)[|a|..|a| + |t|] == t;
    assert OccursAt(a + t + b, t, |a|);
  }

  /** An occurrence survives text being added on either side, shifted by the
      length of what was added in front. */
  lemma OccursAtWithin(a: string, s: string, b: string, t: string, k: nat)
    requires OccursAt(s, t, k)
    ensures OccursAt(a + s + b, t, |a| + k)
  {
    assert (a + s + b)[|a| + k..|a| + k + |t|] == s[k..k + |t|];
  }

  /** Whatever a piece of `s` contains, `s` contains. */
  lemma ContainsWithin(s: string, piece: string, at: nat, t: string)
    requires OccursAt(s, piece, at)
    requires Contains(piece, t)
    ensures Contains(s, t)
  {
    var k: nat :| k <= |piece| && OccursAt(piece, t, k);
    forall j | 0 <= j < |t|
      ensures s[at + k + j] == t[j]
    {
      assert s[at..at + |piece|][k + j] == s[at + k + j];
      assert piece[k..k + |t|][j] == piece[k + j];
    }
    assert s[at + k..at + k + |t|] == t;
    assert OccursAt(s, t, at + k);
  }

  /** The three parts of a concatenation are found at their offsets. */
  lemma ConcatParts(a: string, b: string, c: string)
    ensures (a + b + c)[..|a|] == a
    ensures (a + b + c)[|a|..|a| + |b|] == b
    ensures (a + b + c)[|a| + |b|..] == c
  {
  }

  /** A slice of a slice is a slice of the original string. */
  lemma SliceOfSlice(s: string, lo: nat, hi: nat, i: nat, j: nat)
    requires lo <= hi <= |s| && i <= j <= hi - lo
    ensures s[lo..hi][i..j] == s[lo + i..lo + j]
  {
    assert forall k :: 0 <= k < j - i ==> s[lo..hi][i..j][k] == s[lo..hi][i + k] == s[lo + i + k];
  }
}
