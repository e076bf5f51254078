/** The two text operations the webcam updater relies on: the zero-padded
    decimal fields that strftime prints, and the substitution of the `{}`
    placeholder by a value (`replacetoken` and `str.replace("{}", ...)`). */
module Text {

  function Pow10(n: nat): (r: nat)
    ensures r >= 1
  {
    if n == 0 then 1 else 10 * Pow10(n - 1)
  }

  predicate IsDigit(c: char) {
    '0' <= c <= '9'
  }

  predicate AllDigits(s: string) {
    forall i :: 0 <= i < |s| ==> IsDigit(s[i])
  }

  function DigitValue(c: char): (d: nat)
    requires IsDigit(c)
    ensures d < 10
  {
    c as int - '0' as int
  }

  function DigitChar(d: nat): (c: char)
    requires d < 10
    ensures IsDigit(c) && DigitValue(c) == d
  {
    ('0' as int + d) as char
  }

  /** The low `width` decimal digits of `n`, most significant first, padded
      on the left with '0' (strftime's `%Y` with width 4, `%m` with width 2). */
  function ZeroPad(n: nat, width: nat): (s: string)
    ensures |s| == width && AllDigits(s)
  {
    if width == 0 then "" else ZeroPad(n / 10, width - 1) + [DigitChar(n % 10)]
  }

  /** The number a string of decimal digits denotes: the inverse of ZeroPad. */
  function DecimalValue(s: string): (n: nat)
    requires AllDigits(s)
    ensures n < Pow10(|s|)
  {
    if s == [] then 0
    else
      var init := s[..|s| - 1];
      assert AllDigits(init);
      DecimalValue(init) * 10 + DigitValue(s[|s| - 1])
  }

  /** Padding loses nothing when the number fits in the width. */
  lemma {:induction false} ZeroPadRoundTrip(n: nat, width: nat)
    requires n < Pow10(width)
    ensures DecimalValue(ZeroPad(n, width)) == n
  {
    if width > 0 {
      var init := ZeroPad(n / 10, width - 1);
      ZeroPadRoundTrip(n / 10, width - 1);
      assert (init + [DigitChar(n % 10)])[..width - 1] == init;
    }
  }

  /** Two numbers that fit in the width have the same padding only if equal. */
  lemma ZeroPadInjective(a: nat, b: nat, width: nat)
    requires a < Pow10(width) && b < Pow10(width)
    requires ZeroPad(a, width) == ZeroPad(b, width)
    ensures a == b
  {
    ZeroPadRoundTrip(a, width);
    ZeroPadRoundTrip(b, width);
  }

  /** The placeholder that a label pattern or URL pattern carries. */
  const TOKEN: string := "{}"

  predicate TokenAt(s: string, i: int) {
    0 <= i && i + 1 < |s| && s[i] == '{' && s[i + 1] == '}'
  }

  /** `"{}" in s` */
  predicate HasToken(s: string) {
    exists i :: 0 <= i < |s| && TokenAt(s, i)
  }

  predicate NoBraces(s: string) {
    forall i :: 0 <= i < |s| ==> s[i] != '{' && s[i] != '}'
  }

  /** `s.replace("{}", v)`: scan left to right, replacing each `{}` that does
      not overlap an earlier one. */
  function ReplaceToken(s: string, v: string): (r: string)
    ensures v == TOKEN ==> r == s
  {
    if |s| < 2 then s
    else if s[..2] == TOKEN then v + ReplaceToken(s[2..], v)
    else [s[0]] + ReplaceToken(s[1..], v)
  }

  /** A string without a placeholder comes back unchanged. */
  lemma {:induction false} ReplaceTokenUntouched(s: string, v: string)
    requires !HasToken(s)
    ensures ReplaceToken(s, v) == s
  {
    if |s| >= 2 {
      assert !TokenAt(s, 0);
      forall i | TokenAt(s[1..], i) ensures TokenAt(s, i + 1) { }
      ReplaceTokenUntouched(s[1..], v);
    }
  }

  /** The first placeholder is replaced by `v` and the scan goes on after it,
      so together with ReplaceTokenUntouched every placeholder is replaced. */
  lemma {:induction false} ReplaceTokenFirst(a: string, b: string, v: string)
    requires !HasToken(a)
    ensures ReplaceToken(a + TOKEN + b, v) == a + v + ReplaceToken(b, v)
  {
    var s := a + TOKEN + b;
    if a == [] {
      assert s[..2] == TOKEN && s[2..] == b;
    } else {
      var tail := a[1..] + TOKEN + b;
      assert s == [a[0]] + tail;
      NoTokenAfterHead(a);
      assert s[0] == a[0] && s[1] == (if |a| == 1 then '{' else a[1]);
      assert s[..2] != TOKEN by {
        assert TOKEN[0] == '{' && TOKEN[1] == '}';
        assert s[..2][0] == s[0] && s[..2][1] == s[1];
      }
      ReplaceTokenFirst(a[1..], b, v);
      assert s[1..] == tail;
    }
  }

  /** Dropping the first character of a string keeps it free of `{}`, and
      the string does not start with `{}`. */
  lemma NoTokenAfterHead(a: string)
    requires a != [] && !HasToken(a)
    ensures !HasToken(a[1..])
    ensures |a| >= 2 ==> !(a[0] == '{' && a[1] == '}')
  {
    if |a| >= 2 {
      assert !TokenAt(a, 0);
    }
    forall i | 0 <= i < |a[1..]| && TokenAt(a[1..], i) ensures TokenAt(a, i + 1) { }
  }

  /** A placeholder in a concatenation lies in one part or straddles the seam. */
  lemma HasTokenConcat(a: string, b: string)
    requires HasToken(a + b)
    ensures HasToken(a) || HasToken(b) || (a != [] && b != [] && a[|a| - 1] == '{' && b[0] == '}')
  {
    var i :| 0 <= i < |a + b| && TokenAt(a + b, i);
    assert (a + b)[i] == '{' && (a + b)[i + 1] == '}';
    if i + 1 < |a| {
      assert TokenAt(a, i);
    } else if i >= |a| {
      assert TokenAt(b, i - |a|);
    }
  }

  /** When the value is non-empty and brace-free, no placeholder survives the
      replacement, not even one formed by the text around a replaced one. */
  lemma {:induction false} ReplaceTokenLeavesNone(s: string, v: string)
    requires v != [] && NoBraces(v)
    ensures !HasToken(ReplaceToken(s, v))
    ensures var r := ReplaceToken(s, v); r != [] && r[0] == '}' ==> s != [] && s[0] == '}'
  {
    if |s| < 2 {
    } else if s[..2] == TOKEN {
      var rest := ReplaceToken(s[2..], v);
      ReplaceTokenLeavesNone(s[2..], v);
      if HasToken(v + rest) {
        NoBracesNoToken(v);
        HasTokenConcat(v, rest);
      }
    } else {
      var rest := ReplaceToken(s[1..], v);
      ReplaceTokenLeavesNone(s[1..], v);
      if HasToken([s[0]] + rest) {
        assert s[..2] == [s[0], s[1]];
        HasTokenConcat([s[0]], rest);
      }
    }
  }

  lemma NoBracesNoToken(s: string)
    requires NoBraces(s)
    ensures !HasToken(s)
  {
    forall i | 0 <= i < |s| ensures !TokenAt(s, i) { }
  }

  predicate EndsWith(s: string, suffix: string) {
    |suffix| <= |s| && s[|s| - |suffix|..] == suffix
  }
}
