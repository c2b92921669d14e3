/** The small part of Python's `str` that the supervisor relies on: `strip()`
    with its Unicode whitespace set, ASCII case mapping, the character classes
    of the `string` module, decimal rendering of integers, and `join`. */
module Strings {

  /** `str.isspace()` for one character: the characters Python's `strip()`
      removes when called without arguments. */
  predicate IsSpace(c: char) {
    ('\U{0009}' <= c <= '\U{000D}') || ('\U{001C}' <= c <= '\U{001F}') || c == ' '
    || c == '\U{0085}' || c == '\U{00A0}' || c == '\U{1680}'
    || ('\U{2000}' <= c <= '\U{200A}') || c == '\U{2028}' || c == '\U{2029}'
    || c == '\U{202F}' || c == '\U{205F}' || c == '\U{3000}'
  }

  /** `s.lstrip()`: drops the leading whitespace and nothing else. */
  function StripLeading(s: string): (r: string)
    ensures |r| <= |s| && r == s[|s| - |r|..]
    ensures forall i :: 0 <= i < |s| - |r| ==> IsSpace(s[i])
    ensures r == [] || !IsSpace(r[0])
  {
    if s != [] && IsSpace(s[0]) then StripLeading(s[1..]) else s
  }

  /** `s.rstrip()`: drops the trailing whitespace and nothing else. */
  function StripTrailing(s: string): (r: string)
    ensures |r| <= |s| && r == s[..|r|]
    ensures forall i :: |r| <= i < |s| ==> IsSpace(s[i])
    ensures r == [] || !IsSpace(r[|r| - 1])
  {
    if s != [] && IsSpace(s[|s| - 1]) then StripTrailing(s[..|s| - 1]) else s
  }

  /** `s.strip()`. */
  function Strip(s: string): string {
    StripTrailing(StripLeading(s))
  }

  /** What `strip()` promises: the result is the slice of `s` left after
      removing whitespace at both ends, and it neither starts nor ends with
      whitespace. */
  lemma StripIsTrimmedSlice(s: string)
    ensures exists i, j ::
              && 0 <= i <= j <= |s| && Strip(s) == s[i..j]
              && (forall k :: 0 <= k < i ==> IsSpace(s[k]))
              && (forall k :: j <= k < |s| ==> IsSpace(s[k]))
    ensures Strip(s) == [] || (!IsSpace(Strip(s)[0]) && !IsSpace(Strip(s)[|Strip(s)| - 1]))
  {
    var i, j := StripBounds(s);
    StripEnds(s);
  }

  /** Where the stripped text sits in `s`. */
  lemma StripBounds(s: string) returns (i: nat, j: nat)
    ensures i <= j <= |s| && Strip(s) == s[i..j]
    ensures forall k :: 0 <= k < i ==> IsSpace(s[k])
    ensures forall k :: j <= k < |s| ==> IsSpace(s[k])
  {
    var l := StripLeading(s);
    var t := StripTrailing(l);
    i, j := |s| - |l|, |s| - |l| + |t|;
    TrimmedSlice(s, l, t, i, j);
  }

  /** `t` is the slice `s[i..j]`, and `s` has only blanks after it. */
  lemma TrimmedSlice(s: string, l: string, t: string, i: nat, j: nat)
    requires i <= |s| && l == s[i..]
    requires |t| <= |l| && t == l[..|t|] && (forall k :: |t| <= k < |l| ==> IsSpace(l[k]))
    requires j == i + |t|
    ensures j <= |s| && t == s[i..j]
    ensures forall k :: j <= k < |s| ==> IsSpace(s[k])
  {
    forall k | j <= k < |s|
      ensures IsSpace(s[k])
    {
      assert s[k] == l[k - i];
    }
  }

  /** The stripped text neither starts nor ends with whitespace. */
  lemma StripEnds(s: string)
    ensures Strip(s) == [] || (!IsSpace(Strip(s)[0]) && !IsSpace(Strip(s)[|Strip(s)| - 1]))
  {
    var l := StripLeading(s);
    var t := StripTrailing(l);
    if t != [] {
      assert t[0] == l[0];
    }
  }

  /** Stripping twice is stripping once. */
  lemma StripIdempotent(s: string)
    ensures Strip(Strip(s)) == Strip(s)
  {
    var t := Strip(s);
    StripIsTrimmedSlice(s);
    if t != [] {
      assert StripLeading(t) == t;
      assert StripTrailing(t) == t;
    }
  }

  const DIGITS: string := "0123456789"
  const HEX_DIGITS: string := "0123456789abcdefABCDEF"
  const ASCII_UPPERCASE: string := "ABCDEFGHIJKLMNOPQRSTUVWXYZ"
  const ASCII_LETTERS: string := "abcdefghijklmnopqrstuvwxyzABCDEFGHIJKLMNOPQRSTUVWXYZ"

  predicate IsDigit(c: char) { '0' <= c <= '9' }
  predicate IsUpper(c: char) { 'A' <= c <= 'Z' }
  predicate IsLowerHex(c: char) { '0' <= c <= '9' || 'a' <= c <= 'f' }
  predicate IsUpperHex(c: char) { '0' <= c <= '9' || 'A' <= c <= 'F' }

  /** ASCII `lower()` of one character (every string lowered here is ASCII). */
  function LowerChar(c: char): char {
    if 'A' <= c <= 'Z' then (c as int + 32) as char else c
  }

  /** ASCII `upper()` of one character. */
  function UpperChar(c: char): char {
    if 'a' <= c <= 'z' then (c as int - 32) as char else c
  }

  function Lower(s: string): (r: string)
    ensures |r| == |s|
    ensures forall i :: 0 <= i < |s| ==> r[i] == LowerChar(s[i])
  {
    seq(|s|, i requires 0 <= i < |s| => LowerChar(s[i]))
  }

  function Upper(s: string): (r: string)
    ensures |r| == |s|
    ensures forall i :: 0 <= i < |s| ==> r[i] == UpperChar(s[i])
  {
    seq(|s|, i requires 0 <= i < |s| => UpperChar(s[i]))
  }

  /** The characters of `ascii_uppercase + digits` are letters A-Z and
      digits. */
  lemma UpperOrDigit(c: char)
    requires c in ASCII_UPPERCASE + DIGITS
    ensures IsUpper(c) || IsDigit(c)
  {
    assert c in ASCII_UPPERCASE || c in DIGITS;
  }

  /** Lowering a hexadecimal digit gives a lower-case hexadecimal digit. */
  lemma LowerHex(c: char)
    requires c in HEX_DIGITS
    ensures IsLowerHex(LowerChar(c))
  {
  }

  /** Upper-casing a hexadecimal digit gives an upper-case hexadecimal digit. */
  lemma UpperHex(c: char)
    requires c in HEX_DIGITS
    ensures IsUpperHex(UpperChar(c))
  {
  }

  function DigitChar(d: nat): (c: char)
    requires d < 10
    ensures IsDigit(c) && DigitValue(c) == d
  {
    ('0' as int + d) as char
  }

  predicate AllDigits(s: string) {
    forall i :: 0 <= i < |s| ==> IsDigit(s[i])
  }

  /** Reading one more digit shifts the value by a decimal place. */
  lemma DecimalAppend(s: string, c: char)
    requires AllDigits(s) && IsDigit(c)
    ensures DecimalValue(s + [c]) == DecimalValue(s) * 10 + DigitValue(c)
  {
    assert (s + [c])[..|s|] == s;
  }

  function DigitValue(c: char): nat
    requires IsDigit(c)
  {
    c as int - '0' as int
  }

  /** `str(n)` for a natural number. */
  function NatToDecimal(n: nat): (r: string)
    ensures |r| >= 1
    ensures forall i :: 0 <= i < |r| ==> IsDigit(r[i])
    ensures r[0] == '0' ==> n == 0 && r == "0"
  {
    if n < 10 then [DigitChar(n)] else NatToDecimal(n / 10) + [DigitChar(n % 10)]
  }

  /** The value of a string of decimal digits, as `int(s)` reads it. */
  function DecimalValue(s: string): nat
    requires AllDigits(s)
  {
    if s == [] then 0 else DecimalValue(s[..|s| - 1]) * 10 + DigitValue(s[|s| - 1])
  }

  /** `int(str(n)) == n`. */
  lemma {:induction false} DecimalRoundTrip(n: nat)
    ensures DecimalValue(NatToDecimal(n)) == n
  {
    if n >= 10 {
      var r := NatToDecimal(n);
      assert r[..|r| - 1] == NatToDecimal(n / 10);
      DecimalRoundTrip(n / 10);
    }
  }

  /** `str(i)` for any integer: a minus sign exactly when `i` is negative,
      then the decimal digits of its magnitude, with no leading zero. */
  function IntToDecimal(i: int): (r: string)
    ensures |r| >= 1
    ensures r[0] == '-' <==> i < 0
    ensures var digits := Unsigned(r);
              |digits| >= 1 && AllDigits(digits) && (digits[0] == '0' ==> digits == "0")
  {
    if i < 0 then
      var r := "-" + NatToDecimal(-i);
      assert Unsigned(r) == NatToDecimal(-i);
      r
    else NatToDecimal(i)
  }

  /** The text after an optional leading minus sign. */
  function Unsigned(s: string): string {
    if |s| > 0 && s[0] == '-' then s[1..] else s
  }

  /** `int(str(i)) == i`: the sign and the digits read back the number. */
  lemma IntDecimalRoundTrip(i: int)
    ensures var r := IntToDecimal(i);
            (if r[0] == '-' then -1 else 1) * DecimalValue(Unsigned(r)) == i
  {
    var r := IntToDecimal(i);
    if i < 0 {
      assert Unsigned(r) == NatToDecimal(-i);
      DecimalRoundTrip(-i);
    } else {
      DecimalRoundTrip(i);
    }
  }

  /** `sep.join(parts)`. */
  function Join(sep: string, parts: seq<string>): (r: string)
    ensures parts == [] ==> r == ""
    ensures |parts| == 1 ==> r == parts[0]
    ensures |parts| >= 1 ==> |r| + |sep| == PartStart(sep, parts, |parts|)
  {
    if parts == [] then ""
    else if |parts| == 1 then parts[0]
    else
      PartStartOfPrefix(sep, parts, |parts| - 1, |parts| - 1);
      Join(sep, parts[..|parts| - 1]) + sep + parts[|parts| - 1]
  }

  /** Where part `i` starts in `sep.join(parts)`: after each earlier part
      and the separator that follows it. */
  function PartStart(sep: string, parts: seq<string>, i: nat): nat
    requires i <= |parts|
  {
    if i == 0 then 0 else PartStart(sep, parts, i - 1) + |parts[i - 1]| + |sep|
  }

  lemma {:induction false} PartStartOfPrefix(sep: string, parts: seq<string>, n: nat, i: nat)
    requires i <= n <= |parts|
    ensures PartStart(sep, parts[..n], i) == PartStart(sep, parts, i)
  {
    if i > 0 {
      PartStartOfPrefix(sep, parts, n, i - 1);
      assert parts[..n][i - 1] == parts[i - 1];
    }
  }

  /** Part `i` of `sep.join(parts)` sits at `PartStart(sep, parts, i)`. */
  lemma {:induction false} JoinPart(sep: string, parts: seq<string>, i: nat)
    requires i < |parts|
    ensures PartStart(sep, parts, i) + |parts[i]| <= |Join(sep, parts)|
    ensures Join(sep, parts)[PartStart(sep, parts, i)..PartStart(sep, parts, i) + |parts[i]|] == parts[i]
  {
    var n := |parts|;
    if n > 1 {
      var init := parts[..n - 1];
      var j := Join(sep, init);
      assert Join(sep, parts) == j + (sep + parts[n - 1]);
      PartStartOfPrefix(sep, parts, n - 1, i);
      if i < n - 1 {
        JoinPart(sep, init, i);
        assert init[i] == parts[i];
        InsideJoinedPrefix(j, sep + parts[n - 1], PartStart(sep, parts, i), |parts[i]|);
      } else {
        assert (j + (sep + parts[n - 1]))[|j| + |sep|..] == parts[n - 1];
      }
    }
  }

  /** Exactly `sep` follows every part of `sep.join(parts)` but the last. */
  lemma {:induction false} JoinSeparator(sep: string, parts: seq<string>, i: nat)
    requires i + 1 < |parts|
    ensures PartStart(sep, parts, i) + |parts[i]| + |sep| <= |Join(sep, parts)|
    ensures Join(sep, parts)[PartStart(sep, parts, i) + |parts[i]|..PartStart(sep, parts, i) + |parts[i]| + |sep|] == sep
  {
    var n := |parts|;
    var init := parts[..n - 1];
    var j := Join(sep, init);
    assert Join(sep, parts) == j + (sep + parts[n - 1]);
    PartStartOfPrefix(sep, parts, n - 1, i);
    assert init[i] == parts[i];
    if i + 2 < n {
      JoinSeparator(sep, init, i);
      InsideJoinedPrefix(j, sep + parts[n - 1], PartStart(sep, parts, i) + |parts[i]|, |sep|);
    } else {
      PartStartOfPrefix(sep, parts, n - 1, n - 1);
      assert (j + (sep + parts[n - 1]))[|j|..|j| + |sep|] == sep;
    }
  }

  /** A slice that lies inside `a` reads the same in `a + b`. */
  lemma InsideJoinedPrefix(a: string, b: string, lo: nat, len: nat)
    requires lo + len <= |a|
    ensures (a + b)[lo..lo + len] == a[lo..lo + len]
  {
  }

  /** Joining `n` parts of equal length `k` with a one-character separator
      gives a string of length `n * k + n - 1`. */
  lemma {:induction false} JoinLength(sep: string, parts: seq<string>, k: nat)
    requires |sep| == 1 && |parts| >= 1
    requires forall i :: 0 <= i < |parts| ==> |parts[i]| == k
    ensures |Join(sep, parts)| == |parts| * k + |parts| - 1
  {
    if |parts| > 1 {
      JoinLength(sep, parts[..|parts| - 1], k);
    }
  }
}
