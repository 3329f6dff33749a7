/**
 * The few pieces of .NET string behaviour that the editor and the services rely on:
 * `char.IsWhiteSpace`, `string.IsNullOrWhiteSpace`, `string.Trim`, `ToLowerInvariant`
 * on the characters that matter here, `string.Join`, and decimal formatting of
 * integers (plain `{n}` interpolation and the `D2` format).
 * A C# `null` string is modelled as the empty string: every check in the source treats
 * the two alike (`IsNullOrEmpty`, `IsNullOrWhiteSpace`).
 */
module Text {

  /** `char.IsWhiteSpace`: the Unicode space separators, the line and paragraph separators,
      and the control characters U+0009..U+000D and U+0085. */
  predicate IsWhiteSpace(c: char) {
    || c == ' '
    || ('\t' <= c <= '\r')
    || c == '\U{0085}'
    || c == '\U{00A0}'
    || c == '\U{1680}'
    || ('\U{2000}' <= c <= '\U{200A}')
    || c == '\U{2028}'
    || c == '\U{2029}'
    || c == '\U{202F}'
    || c == '\U{205F}'
    || c == '\U{3000}'
  }

  /** `string.IsNullOrWhiteSpace`: no character other than white space. */
  predicate IsBlank(s: string) {
    forall i | 0 <= i < |s| :: IsWhiteSpace(s[i])
  }

  /** Index of the first character at or after `i` that is not white space (|s| if none). */
  function SkipWhiteSpace(s: string, i: nat): (k: nat)
    requires i <= |s|
    ensures i <= k <= |s|
    ensures IsBlank(s[i..k])
    ensures k < |s| ==> !IsWhiteSpace(s[k])
    decreases |s| - i
  {
    if i < |s| && IsWhiteSpace(s[i]) then SkipWhiteSpace(s, i + 1) else i
  }

  /** Largest end `k` in [lo, j] such that s[lo..k] does not end in white space. */
  function SkipWhiteSpaceBack(s: string, lo: nat, j: nat): (k: nat)
    requires lo <= j <= |s|
    ensures lo <= k <= j
    ensures IsBlank(s[k..j])
    ensures k > lo ==> !IsWhiteSpace(s[k - 1])
    decreases j
  {
    if lo < j && IsWhiteSpace(s[j - 1]) then
      var k := SkipWhiteSpaceBack(s, lo, j - 1);
      assert s[k..j] == s[k..j - 1] + [s[j - 1]];
      k
    else
      j
  }

  /** `string.Trim()`: removes every leading and trailing white-space character. */
  function Trim(s: string): (r: string)
    ensures |r| <= |s|
    ensures IsBlank(s) <==> r == ""
    ensures r != "" ==> !IsWhiteSpace(r[0]) && !IsWhiteSpace(r[|r| - 1])
    ensures exists i, j | 0 <= i <= j <= |s| :: r == s[i..j] && IsBlank(s[..i]) && IsBlank(s[j..])
  {
    var b := SkipWhiteSpace(s, 0);
    var e := SkipWhiteSpaceBack(s, b, |s|);
    TrimmedSlice(s, b, e);
    s[b..e]
  }

  lemma TrimmedSlice(s: string, b: nat, e: nat)
    requires b <= e <= |s|
    requires IsBlank(s[0..b]) && (b < |s| ==> !IsWhiteSpace(s[b]))
    requires IsBlank(s[e..|s|]) && (e > b ==> !IsWhiteSpace(s[e - 1]))
    ensures IsBlank(s) <==> s[b..e] == ""
    ensures IsBlank(s[..b]) && IsBlank(s[e..])
  {
    assert s[..b] == s[0..b] && s[e..] == s[e..|s|];
    assert forall k | 0 <= k < b :: s[0..b][k] == s[k];
    assert forall k | e <= k < |s| :: s[e..|s|][k - e] == s[k];
  }

  /** `ToLowerInvariant` on ASCII letters. No character outside ASCII lower-cases to one of
      the letters this model compares against, so other characters are kept as they are. */
  function LowerChar(c: char): char {
    if 'A' <= c <= 'Z' then (c as int - 'A' as int + 'a' as int) as char else c
  }

  function ToLower(s: string): (r: string)
    ensures |r| == |s|
  {
    seq(|s|, i requires 0 <= i < |s| => LowerChar(s[i]))
  }

  /** `string.Join(separator, items)`. */
  function Join(separator: string, items: seq<string>): string {
    if |items| == 0 then ""
    else if |items| == 1 then items[0]
    else Join(separator, items[..|items| - 1]) + separator + items[|items| - 1]
  }

  predicate IsDigit(c: char) {
    '0' <= c <= '9'
  }

  function DigitChar(d: nat): (c: char)
    requires d < 10
    ensures IsDigit(c)
  {
    ('0' as int + d) as char
  }

  /** Value of a string of decimal digits, most significant first. */
  function DigitsValue(s: string): nat
    requires forall i | 0 <= i < |s| :: IsDigit(s[i])
  {
    if s == [] then 0
    else
      assert IsDigit(s[|s| - 1]);
      10 * DigitsValue(s[..|s| - 1]) + (s[|s| - 1] as int - '0' as int)
  }

  /** Decimal rendering of a natural number, without leading zeros. */
  function NatToString(n: nat): (r: string)
    ensures |r| >= 1
    ensures forall i | 0 <= i < |r| :: IsDigit(r[i])
    ensures n < 10 <==> |r| == 1
  {
    if n < 10 then [DigitChar(n)] else NatToString(n / 10) + [DigitChar(n % 10)]
  }

  /** Decimal rendering of an integer, as `{n}` does in C#. */
  function IntToString(n: int): string {
    if n < 0 then "-" + NatToString(-n) else NatToString(n)
  }

  /** The `D2` format: at least two digits, a leading minus sign for negatives. */
  function FormatD2(n: int): string {
    var digits := NatToString(if n < 0 then -n else n);
    (if n < 0 then "-" else "") + (if |digits| < 2 then "0" + digits else digits)
  }

  lemma {:induction false} NatToStringRoundTrip(n: nat)
    ensures DigitsValue(NatToString(n)) == n
  {
    if n >= 10 {
      NatToStringRoundTrip(n / 10);
      var r := NatToString(n);
      assert r[..|r| - 1] == NatToString(n / 10);
    }
  }

  lemma NatToStringInjective(a: nat, b: nat)
    requires a != b
    ensures NatToString(a) != NatToString(b)
  {
    NatToStringRoundTrip(a);
    NatToStringRoundTrip(b);
  }

  /** Different numbers never render alike, so the per-chapter names built from them differ. */
  lemma IntToStringInjective(a: int, b: int)
    requires a != b
    ensures IntToString(a) != IntToString(b)
  {
    var ra, rb := IntToString(a), IntToString(b);
    if a < 0 && b < 0 {
      NatToStringInjective(-a, -b);
      assert ra[1..] == NatToString(-a) && rb[1..] == NatToString(-b);
    } else if a >= 0 && b >= 0 {
      NatToStringInjective(a, b);
    } else if a < 0 {
      assert ra[0] == '-' && IsDigit(rb[0]);
    } else {
      assert rb[0] == '-' && IsDigit(ra[0]);
    }
  }

  /** For 0 <= n < 100 the D2 text is exactly two digits that read back as n. */
  lemma FormatD2RoundTrip(n: int)
    requires 0 <= n < 100
    ensures |FormatD2(n)| == 2
    ensures IsDigit(FormatD2(n)[0]) && IsDigit(FormatD2(n)[1])
    ensures DigitsValue(FormatD2(n)) == n
  {
    NatToStringRoundTrip(n);
    var r := FormatD2(n);
    if n < 10 {
      assert r == ['0', DigitChar(n)];
      assert r[..1] == ['0'];
    } else {
      assert n / 10 < 10;
      assert r == NatToString(n);
    }
  }
}
