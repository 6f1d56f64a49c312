/** The few pieces of Go's `strings` and `fmt` packages the core relies on:
    `strings.TrimSpace` and the decimal rendering of `%d`. */
module Text {

  /** The white space characters of Go's `unicode.IsSpace` outside the U+2000..U+200A block:
      the Latin-1 spaces plus the remaining Unicode White_Space characters. */
  const SpaceChars: set<char> := {
    ' ', '\t', '\n', '\U{000B}', '\U{000C}', '\r', '\U{0085}', '\U{00A0}', '\U{1680}',
    '\U{2028}', '\U{2029}', '\U{202F}', '\U{205F}', '\U{3000}' }

  /** Go's `unicode.IsSpace`. */
  predicate IsSpace(c: char) {
    c in SpaceChars || '\U{2000}' <= c <= '\U{200A}'
  }

  predicate AllSpace(s: string) {
    forall i | 0 <= i < |s| :: IsSpace(s[i])
  }

  /** The end of the run of white space that starts at `i`: every character from `i` up to the
      result is white space, and the character at the result, if any, is not. */
  function SkipSpace(s: string, i: nat): (n: nat)
    requires i <= |s|
    ensures i <= n <= |s|
    ensures forall k | i <= k < n :: IsSpace(s[k])
    ensures n < |s| ==> !IsSpace(s[n])
    decreases |s| - i
  {
    if i < |s| && IsSpace(s[i]) then SkipSpace(s, i + 1) else i
  }

  /** The start of the run of white space that ends at `j`, scanning back no further than `lo`:
      every character from the result up to `j` is white space, and the one before the result,
      if it lies at or after `lo`, is not. */
  function SkipSpaceBack(s: string, lo: nat, j: nat): (n: nat)
    requires lo <= j <= |s|
    ensures lo <= n <= j
    ensures forall k | n <= k < j :: IsSpace(s[k])
    ensures n > lo ==> !IsSpace(s[n - 1])
    decreases j - lo
  {
    if j > lo && IsSpace(s[j - 1]) then SkipSpaceBack(s, lo, j - 1) else j
  }

  /** `strings.TrimSpace`: scans forward past the leading white space, then back from the end
      past the trailing white space, and keeps what lies between. The result neither starts nor
      ends with white space. */
  function TrimSpace(s: string): (r: string)
    ensures |r| <= |s|
    ensures r == [] || (!IsSpace(r[0]) && !IsSpace(r[|r| - 1]))
  {
    var start := SkipSpace(s, 0);
    s[start..SkipSpaceBack(s, start, |s|)]
  }

  /** The trimmed string is the slice of the input that starts where the leading white space
      ends, and everything cut off on either side of it is white space. */
  lemma TrimSpaceIsSlice(s: string)
    ensures var r := TrimSpace(s);
      var i := SkipSpace(s, 0);
      && i + |r| <= |s|
      && r == s[i..i + |r|]
      && (forall k | 0 <= k < i :: IsSpace(s[k]))
      && (forall k | i + |r| <= k < |s| :: IsSpace(s[k]))
  {
    var start := SkipSpace(s, 0);
    var end := SkipSpaceBack(s, start, |s|);
    assert TrimSpace(s) == s[start..end];
  }

  /** Trimming leaves nothing exactly when the input is all white space. */
  lemma TrimSpaceEmptyIff(s: string)
    ensures TrimSpace(s) == [] <==> AllSpace(s)
  {
    var start := SkipSpace(s, 0);
    var end := SkipSpaceBack(s, start, |s|);
    assert TrimSpace(s) == s[start..end];
    if end == start {
      // nothing is left after the leading white space, since the forward scan stops only at a
      // character that is not white space, which the backward scan would have kept
      assert start == |s|;
    } else {
      // the first character kept is not white space
      assert start < |s| && !IsSpace(s[start]);
    }
  }

  /** Trimming an already trimmed string changes nothing. */
  lemma TrimSpaceIdempotent(s: string)
    ensures TrimSpace(TrimSpace(s)) == TrimSpace(s)
  {
    var r := TrimSpace(s);
    // r neither starts nor ends with white space, so both scans stop at once
    assert SkipSpace(r, 0) == 0;
    assert SkipSpaceBack(r, 0, |r|) == |r|;
    assert r[0..|r|] == r;
  }

  /** The position of the first occurrence of `c` in `s`, if any. */
  function IndexOf(s: string, c: char): (r: int)
    ensures -1 <= r < |s|
    ensures r == -1 ==> c !in s
    ensures r >= 0 ==> s[r] == c && c !in s[..r]
  {
    if s == [] then -1
    else if s[0] == c then 0
    else
      var k := IndexOf(s[1..], c);
      if k == -1 then -1
      else
        assert s[..k + 1] == [s[0]] + s[1..][..k];
        k + 1
  }

  /** The decimal digits of a natural number, most significant first (Go's `%d`). */
  function NatToDecimal(n: nat): (r: string)
    ensures |r| > 0
    ensures forall k | 0 <= k < |r| :: '0' <= r[k] <= '9'
    decreases n
  {
    var digit := [(('0' as int) + n % 10) as char];
    if n < 10 then digit else NatToDecimal(n / 10) + digit
  }

  /** The number a string of decimal digits denotes, most significant first. */
  function DecimalValue(s: string): int
    decreases |s|
  {
    if s == [] then 0 else DecimalValue(s[..|s| - 1]) * 10 + (s[|s| - 1] as int - '0' as int)
  }

  /** The digits denote the number they render. */
  lemma {:induction false} NatToDecimalValue(n: nat)
    ensures DecimalValue(NatToDecimal(n)) == n
    decreases n
  {
    var digit := [(('0' as int) + n % 10) as char];
    if n >= 10 {
      var prefix := NatToDecimal(n / 10);
      var r := prefix + digit;
      assert r[..|r| - 1] == prefix && r[|r| - 1] == digit[0];
      NatToDecimalValue(n / 10);
    }
  }

  /** Like `%d`, the rendering of a positive number never starts with a zero. */
  lemma {:induction false} NoLeadingZero(n: nat)
    ensures n > 0 ==> NatToDecimal(n)[0] != '0'
    decreases n
  {
    if n >= 10 {
      NoLeadingZero(n / 10);
    }
  }

  /** `%d` of a signed integer. */
  function IntToDecimal(i: int): string {
    if i < 0 then "-" + NatToDecimal(-i) else NatToDecimal(i)
  }
}
