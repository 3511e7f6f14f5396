/**
 * String helpers used by the processor and the terminal view: Python's `str.strip()`,
 * newline replacement, space runs, integer formatting and `sep.join(...)`.
 */
module Text {

  /** Python's `str.isspace()` set: the characters `str.strip()` removes. */
  predicate IsSpace(c: char) {
    c == ' ' || ('\t' <= c <= '\r') || ('\U{1c}' <= c <= '\U{1f}')
    || c == '\U{85}' || c == '\U{a0}' || c == '\U{1680}'
    || ('\U{2000}' <= c <= '\U{200a}') || c == '\U{2028}' || c == '\U{2029}'
    || c == '\U{202f}' || c == '\U{205f}' || c == '\U{3000}'
  }

  /** Number of leading whitespace characters of `s`. */
  function LeadingSpaces(s: string): (n: nat)
    ensures n <= |s|
    ensures forall k :: 0 <= k < n ==> IsSpace(s[k])
    ensures n < |s| ==> !IsSpace(s[n])
  {
    if |s| > 0 && IsSpace(s[0]) then 1 + LeadingSpaces(s[1..]) else 0
  }

  /** Index just past the last non-whitespace character of `s`, never below `from`. */
  function ContentEnd(s: string, from: nat): (n: nat)
    requires from <= |s|
    ensures from <= n <= |s|
    ensures forall k :: n <= k < |s| ==> IsSpace(s[k])
    ensures n > from ==> !IsSpace(s[n - 1])
    decreases |s|
  {
    if |s| > from && IsSpace(s[|s| - 1]) then ContentEnd(s[..|s| - 1], from) else |s|
  }

  /** Python's `s.strip()`: `s` without leading and trailing whitespace. */
  function Strip(s: string): (r: string)
    ensures |r| <= |s|
    ensures |r| > 0 ==> !IsSpace(r[0]) && !IsSpace(r[|r| - 1])
    ensures exists i, j :: 0 <= i <= j <= |s| && r == s[i..j]
                           && (forall k :: 0 <= k < i ==> IsSpace(s[k]))
                           && (forall k :: j <= k < |s| ==> IsSpace(s[k]))
  {
    var i := LeadingSpaces(s);
    var j := ContentEnd(s, i);
    assert j > i ==> !IsSpace(s[i]);
    s[i..j]
  }

  /** A string without whitespace at either end is its own `strip()`. */
  lemma StripTrimmed(s: string)
    requires |s| > 0 ==> !IsSpace(s[0]) && !IsSpace(s[|s| - 1])
    ensures Strip(s) == s
  {
    assert LeadingSpaces(s) == 0;
    assert ContentEnd(s, 0) == |s|;
  }

  /** Python's `s.replace('\n', ' ')`. */
  function ReplaceNewlines(s: string): (r: string)
    ensures |r| == |s|
    ensures forall k :: 0 <= k < |r| ==> r[k] != '\n'
    ensures forall k :: 0 <= k < |s| && s[k] != '\n' ==> r[k] == s[k]
    ensures forall k :: 0 <= k < |s| && s[k] == '\n' ==> r[k] == ' '
  {
    seq(|s|, k requires 0 <= k < |s| => if s[k] == '\n' then ' ' else s[k])
  }

  /** Python's `' ' * n`: `n` spaces, and the empty string for `n <= 0`. */
  function Spaces(n: int): (r: string)
    ensures |r| == if n > 0 then n else 0
    ensures forall k :: 0 <= k < |r| ==> r[k] == ' '
  {
    Repeat(' ', n)
  }

  /** Python's `c * n` for a one-character string `c`. */
  function Repeat(c: char, n: int): (r: string)
    ensures |r| == if n > 0 then n else 0
    ensures forall k :: 0 <= k < |r| ==> r[k] == c
  {
    seq(if n > 0 then n else 0, _ => c)
  }

  function Max(a: int, b: int): int { if a >= b then a else b }
  function Min(a: int, b: int): int { if a <= b then a else b }

  // ----- integers as decimal text -----

  function DigitChar(d: nat): char
    requires d < 10
  {
    "0123456789"[d]
  }

  function DigitValue(c: char): int {
    c as int - '0' as int
  }

  /** Python's `str(n)` for a non-negative integer: decimal digits, no leading zeros. */
  function Digits(n: nat): (r: string)
    ensures |r| > 0
    ensures forall k :: 0 <= k < |r| ==> '0' <= r[k] <= '9'
    ensures |r| > 1 ==> r[0] != '0'
  {
    if n < 10 then [DigitChar(n)] else Digits(n / 10) + [DigitChar(n % 10)]
  }

  /** Reads a run of decimal digits back as a number: the inverse of Digits. */
  function ParseDigits(s: string): int {
    if |s| == 0 then 0 else 10 * ParseDigits(s[..|s| - 1]) + DigitValue(s[|s| - 1])
  }

  lemma {:induction false} ParseDigitsOfDigits(n: nat)
    ensures ParseDigits(Digits(n)) == n
  {
    if n >= 10 {
      var d := Digits(n);
      assert d[..|d| - 1] == Digits(n / 10);
      ParseDigitsOfDigits(n / 10);
    }
  }

  /** Python's `str(v)` for an integer: a minus sign for negatives. */
  function IntToString(v: int): (r: string)
    ensures |r| > 0
  {
    if v < 0 then "-" + Digits(-v) else Digits(v)
  }

  /** Python's `f"{v:+}"` for an integer: always carries a sign. */
  function SignedIntToString(v: int): (r: string)
    ensures |r| >= 2
    ensures r[0] == (if v >= 0 then '+' else '-')
  {
    (if v >= 0 then "+" else "-") + Digits(if v >= 0 then v else -v)
  }

  /** Reads a signed decimal back: the inverse of SignedIntToString and IntToString. */
  function ParseInt(s: string): int {
    if |s| > 0 && s[0] == '-' then -ParseDigits(s[1..])
    else if |s| > 0 && s[0] == '+' then ParseDigits(s[1..])
    else ParseDigits(s)
  }

  /** A string starting with a sign is read as that sign applied to the digits after it. */
  lemma ParseIntSigned(s: string)
    requires |s| > 0 && (s[0] == '-' || s[0] == '+')
    ensures ParseInt(s) == if s[0] == '-' then -ParseDigits(s[1..]) else ParseDigits(s[1..])
  {
  }

  /** A string starting with a digit is read as its digits. */
  lemma ParseIntUnsigned(s: string)
    requires |s| > 0 && '0' <= s[0] <= '9'
    ensures ParseInt(s) == ParseDigits(s)
  {
  }

  lemma SignedIntRoundTrip(v: int)
    ensures ParseInt(SignedIntToString(v)) == v
  {
    var n := if v >= 0 then v else -v;
    var s := SignedIntToString(v);
    assert s[1..] == Digits(n);
    ParseDigitsOfDigits(n);
    ParseIntSigned(s);
  }

  lemma IntRoundTrip(v: int)
    ensures ParseInt(IntToString(v)) == v
  {
    if v < 0 {
      assert IntToString(v) == SignedIntToString(v);
      SignedIntRoundTrip(v);
    } else {
      UnsignedIntRoundTrip(v);
    }
  }

  lemma UnsignedIntRoundTrip(n: nat)
    ensures ParseInt(Digits(n)) == n
  {
    ParseDigitsOfDigits(n);
    ParseIntUnsigned(Digits(n));
  }

  // ----- join and split -----

  /** Python's `sep.join(parts)`. */
  function Join(sep: string, parts: seq<string>): (r: string)
    decreases |parts|
  {
    if |parts| == 0 then ""
    else if |parts| == 1 then parts[0]
    else parts[0] + sep + Join(sep, parts[1..])
  }

  /** The total length of a sequence of strings. */
  function TotalLength(parts: seq<string>): nat {
    if |parts| == 0 then 0 else |parts[0]| + TotalLength(parts[1..])
  }

  lemma {:induction false} JoinLength(sep: string, parts: seq<string>)
    requires |parts| > 0
    ensures |Join(sep, parts)| == TotalLength(parts) + (|parts| - 1) * |sep|
  {
    if |parts| > 1 {
      JoinLength(sep, parts[1..]);
    }
  }

  /** Index of the first `c` in `s`, or |s| when there is none. */
  function IndexOf(s: string, c: char): (i: nat)
    ensures i <= |s|
    ensures forall k :: 0 <= k < i ==> s[k] != c
    ensures i < |s| ==> s[i] == c
  {
    if |s| == 0 then 0 else if s[0] == c then 0 else 1 + IndexOf(s[1..], c)
  }

  /** Python's `s.split(c)` for one separator character. */
  function Split(s: string, c: char): (r: seq<string>)
    ensures |r| > 0
    decreases |s|
  {
    var i := IndexOf(s, c);
    if i == |s| then [s] else [s[..i]] + Split(s[i + 1..], c)
  }

  /** The first `c` in `s` is at `p` when `s[p]` is `c` and nothing before it is. */
  lemma IndexOfAt(s: string, c: char, p: nat)
    requires p < |s| && s[p] == c
    requires forall k :: 0 <= k < p ==> s[k] != c
    ensures IndexOf(s, c) == p
  {
  }

  /** Splitting what was joined with a character that no part contains gives the parts back. */
  lemma {:induction false} SplitJoin(c: char, parts: seq<string>)
    requires |parts| > 0
    requires forall i, k :: 0 <= i < |parts| && 0 <= k < |parts[i]| ==> parts[i][k] != c
    ensures Split(Join([c], parts), c) == parts
  {
    var s := Join([c], parts);
    if |parts| == 1 {
      assert s == parts[0];
    } else {
      var rest := Join([c], parts[1..]);
      assert s == parts[0] + [c] + rest;
      var p := |parts[0]|;
      assert forall k :: 0 <= k < p ==> s[k] == parts[0][k];
      IndexOfAt(s, c, p);
      assert s[..p] == parts[0];
      assert s[p + 1..] == rest;
      assert Split(s, c) == [parts[0]] + Split(rest, c);
      SplitJoin(c, parts[1..]);
      assert parts == [parts[0]] + parts[1..];
    }
  }
}
