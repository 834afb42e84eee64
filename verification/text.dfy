/**
 * The JavaScript string operations the core applies: `trim`, `indexOf`,
 * `lastIndexOf`, `substring`, `split(' ')[0]`, `padStart`, `String(n)` on a
 * natural number and the UTF-16 `length`. Strings are sequences of Unicode
 * scalar values; every index the core computes refers to a BMP character
 * (`{`, `}`, a space), so indices on scalar values select the same text as
 * JavaScript's code-unit indices.
 */
module Text {
  import opened Base

  /** ECMAScript WhiteSpace and LineTerminator code points: what `trim`
      removes. */
  predicate IsJsSpace(c: char) {
    || c == '\t' || c == '\n' || c == '\U{000B}' || c == '\U{000C}' || c == '\r'
    || c == ' ' || c == '\U{00A0}' || c == '\U{1680}'
    || ('\U{2000}' <= c <= '\U{200A}')
    || c == '\U{2028}' || c == '\U{2029}' || c == '\U{202F}' || c == '\U{205F}'
    || c == '\U{3000}' || c == '\U{FEFF}'
  }

  /** Every character of `s` is whitespace. */
  predicate AllSpace(s: string) {
    forall k :: 0 <= k < |s| ==> IsJsSpace(s[k])
  }

  /** `n..m` is a piece of `s` with only whitespace outside it. */
  predicate Framed(s: string, n: int, m: int) {
    && 0 <= n <= m <= |s|
    && (forall k :: 0 <= k < n ==> IsJsSpace(s[k]))
    && (forall k :: m <= k < |s| ==> IsJsSpace(s[k]))
  }

  /** The position of the first character at or after `i` that is not
      whitespace, or the end of `s`. */
  function SkipSpace(s: string, i: nat): (n: nat)
    requires i <= |s|
    ensures i <= n <= |s|
    ensures forall k :: i <= k < n ==> IsJsSpace(s[k])
    ensures n < |s| ==> !IsJsSpace(s[n])
    decreases |s| - i
  {
    if i < |s| && IsJsSpace(s[i]) then SkipSpace(s, i + 1) else i
  }

  /** The position just after the last character before `j` that is not
      whitespace, or `lo` when there is none from `lo` on. */
  function BackSpace(s: string, lo: nat, j: nat): (m: nat)
    requires lo <= j <= |s|
    ensures lo <= m <= j
    ensures forall k :: m <= k < j ==> IsJsSpace(s[k])
    ensures m > lo ==> !IsJsSpace(s[m - 1])
    decreases j
  {
    if j > lo && IsJsSpace(s[j - 1]) then BackSpace(s, lo, j - 1) else j
  }

  /** `String.prototype.trim`: whitespace removed from both ends, so what
      is left is empty or starts and ends with another character. */
  function Trim(s: string): (r: string)
    ensures |r| <= |s|
    ensures |r| == 0 || (!IsJsSpace(r[0]) && !IsJsSpace(r[|r| - 1]))
  {
    var n := SkipSpace(s, 0);
    s[n..BackSpace(s, n, |s|)]
  }

  /** The trimmed string is a piece of the original with only whitespace
      outside it. */
  lemma TrimPiece(s: string) returns (n: nat, m: nat)
    ensures Framed(s, n, m) && Trim(s) == s[n..m]
  {
    n := SkipSpace(s, 0);
    m := BackSpace(s, n, |s|);
  }

  /** A piece of a piece of `s` is a piece of `s`. */
  lemma SliceOfSlice(s: string, n: int, m: int, a: int, b: int)
    requires 0 <= n <= a <= b <= m <= |s|
    ensures s[n..m][a - n..b - n] == s[a..b]
  {
    assert forall k :: 0 <= k < b - a ==> s[n..m][a - n..b - n][k] == s[a..b][k];
  }

  /** A character that is not whitespace lies inside a framed piece. */
  lemma Between(s: string, n: int, m: int, k: int)
    requires Framed(s, n, m)
    requires 0 <= k < |s| && !IsJsSpace(s[k])
    ensures n <= k < m
  {
  }

  /** A character that is not whitespace occurs in a framed piece exactly
      when it occurs in the whole. */
  lemma InFramedPiece(s: string, n: int, m: int, c: char)
    requires Framed(s, n, m) && !IsJsSpace(c)
    ensures c in s[n..m] <==> c in s
  {
    if c in s {
      var k :| 0 <= k < |s| && s[k] == c;
      Between(s, n, m, k);
      assert s[n..m][k - n] == c;
    }
    if c in s[n..m] {
      var k :| 0 <= k < m - n && s[n..m][k] == c;
      assert s[n + k] == c;
    }
  }

  /** Trimming removes only whitespace: every other character is in the
      trimmed string exactly when it is in the original. */
  lemma TrimKeeps(s: string, c: char)
    requires !IsJsSpace(c)
    ensures c in Trim(s) <==> c in s
  {
    var n, m := TrimPiece(s);
    InFramedPiece(s, n, m, c);
  }

  /** The trimmed string is empty exactly when the original is all
      whitespace. */
  lemma TrimEmpty(s: string)
    ensures Trim(s) == [] <==> AllSpace(s)
  {
    var n, m := TrimPiece(s);
    if Trim(s) != [] {
      assert s[n] == Trim(s)[0];
    }
  }

  /** A string that neither starts nor ends with whitespace is its own trim. */
  lemma TrimUnchanged(s: string)
    requires |s| == 0 || (!IsJsSpace(s[0]) && !IsJsSpace(s[|s| - 1]))
    ensures Trim(s) == s
  {
  }

  /** Trimming twice is trimming once. */
  lemma TrimIdempotent(s: string)
    ensures Trim(Trim(s)) == Trim(s)
  {
    TrimUnchanged(Trim(s));
  }

  /** `s.indexOf(c)`: the position of the first `c`, or -1. */
  function IndexOf(s: string, c: char): (r: int)
    ensures -1 <= r < |s|
    ensures r == -1 <==> c !in s
    ensures r >= 0 ==> s[r] == c
    ensures forall k :: 0 <= k < r ==> s[k] != c
  {
    var i := IndexFrom(s, c, 0);
    if i == |s| then -1 else i
  }

  /** The position of the first `c` at or after `i`, or the end of `s`. */
  function IndexFrom(s: string, c: char, i: nat): (r: nat)
    requires i <= |s|
    ensures i <= r <= |s|
    ensures r < |s| ==> s[r] == c
    ensures forall k :: i <= k < r ==> s[k] != c
    decreases |s| - i
  {
    if i == |s| || s[i] == c then i else IndexFrom(s, c, i + 1)
  }

  /** `s.lastIndexOf(c)`: the position of the last `c`, or -1. */
  function LastIndexOf(s: string, c: char): (r: int)
    ensures -1 <= r < |s|
    ensures r == -1 <==> c !in s
    ensures r >= 0 ==> s[r] == c
    ensures forall k :: r < k < |s| ==> s[k] != c
  {
    LastBefore(s, c, |s|) - 1
  }

  /** One past the position of the last `c` before `j`, or 0 when there is
      none. */
  function LastBefore(s: string, c: char, j: nat): (r: nat)
    requires j <= |s|
    ensures r <= j
    ensures r > 0 ==> s[r - 1] == c
    ensures forall k :: r <= k < j ==> s[k] != c
    decreases j
  {
    if j == 0 || s[j - 1] == c then j else LastBefore(s, c, j - 1)
  }

  /** `x` clamped into `[0, n]`, as `substring` treats its arguments. */
  function Clamp(x: int, n: nat): (r: nat)
    ensures r <= n
    ensures 0 <= x <= n ==> r == x
  {
    if x < 0 then 0 else if x > n then n else x
  }

  /** `s.substring(start, end)`: both arguments are clamped to the string,
      and they are swapped when `start` exceeds `end`. */
  function JsSubstring(s: string, start: int, end: int): (r: string)
    ensures 0 <= start <= end <= |s| ==> r == s[start..end]
    ensures 0 <= end <= start <= |s| ==> r == s[end..start]
  {
    var a := Clamp(start, |s|);
    var b := Clamp(end, |s|);
    if a <= b then s[a..b] else s[b..a]
  }

  /** `s.split(sep)[0]`: the text before the first `sep`, or all of `s`. */
  function SplitHead(s: string, sep: char): (r: string)
    ensures r <= s
    ensures sep !in r
    ensures |r| < |s| ==> s[|r|] == sep
  {
    var i := IndexOf(s, sep);
    if i == -1 then s else s[..i]
  }

  /** `s.padStart(width, fill)` for a one-character fill. */
  function PadStart(s: string, width: nat, fill: char): (r: string)
    ensures |r| == Max(width, |s|)
    ensures r[|r| - |s|..] == s
    ensures forall k :: 0 <= k < |r| - |s| ==> r[k] == fill
  {
    if |s| >= width then s else Repeat(fill, width - |s|) + s
  }

  /** `n` copies of `c`. */
  function Repeat(c: char, n: nat): (r: string)
    ensures |r| == n
    ensures forall k :: 0 <= k < n ==> r[k] == c
  {
    seq(n, _ => c)
  }

  predicate IsDigit(c: char) {
    '0' <= c <= '9'
  }

  predicate AllDigits(s: string) {
    forall k :: 0 <= k < |s| ==> IsDigit(s[k])
  }

  function DigitChar(d: nat): (c: char)
    requires d < 10
    ensures IsDigit(c)
  {
    ('0' as int + d) as char
  }

  /** The number a string of decimal digits denotes. */
  function DigitsValue(s: string): nat
    requires AllDigits(s)
    decreases |s|
  {
    if |s| == 0 then 0
    else DigitsValue(s[..|s| - 1]) * 10 + (s[|s| - 1] as int - '0' as int)
  }

  /** `String(n)` for a natural number: its shortest decimal numeral. */
  function Decimal(n: nat): (r: string)
    ensures |r| >= 1 && AllDigits(r)
    ensures DigitsValue(r) == n
    ensures |r| > 1 ==> r[0] != '0'
    decreases n
  {
    if n < 10 then [DigitChar(n)]
    else
      var front := Decimal(n / 10);
      var r := front + [DigitChar(n % 10)];
      assert r[..|r| - 1] == front;
      r
  }

  /** A leading zero does not change the value of a numeral. */
  lemma {:induction false} LeadingZero(s: string)
    requires AllDigits(s)
    ensures AllDigits("0" + s) && DigitsValue("0" + s) == DigitsValue(s)
    decreases |s|
  {
    if |s| > 0 {
      var init := s[..|s| - 1];
      LeadingZero(init);
      assert ("0" + s)[..|"0" + s| - 1] == "0" + init;
    }
  }

  /** Any number of leading zeros does not change the value of a numeral. */
  lemma {:induction false} LeadingZeros(z: nat, s: string)
    requires AllDigits(s)
    ensures AllDigits(Repeat('0', z) + s)
    ensures DigitsValue(Repeat('0', z) + s) == DigitsValue(s)
    decreases z
  {
    if z > 0 {
      LeadingZeros(z - 1, s);
      var t := Repeat('0', z - 1) + s;
      LeadingZero(t);
      assert Repeat('0', z) == "0" + Repeat('0', z - 1);
      assert Repeat('0', z) + s == "0" + t;
      calc {
        DigitsValue(Repeat('0', z) + s);
        DigitsValue("0" + t);
        DigitsValue(t);
        DigitsValue(s);
      }
    } else {
      assert Repeat('0', z) + s == s;
    }
  }

  /** `s.length`: the number of UTF-16 code units, where a character outside
      the Basic Multilingual Plane takes two. */
  function Utf16Length(s: string): (r: nat)
    ensures |s| <= r <= 2 * |s|
    ensures r == 0 <==> s == []
    decreases |s|
  {
    if |s| == 0 then 0
    else (if s[0] as int > 0xFFFF then 2 else 1) + Utf16Length(s[1..])
  }

  /** The code units a single character takes: one inside the Basic
      Multilingual Plane, a surrogate pair outside it. */
  function CodeUnits(c: char): (r: nat)
    ensures 1 <= r <= 2
    ensures r == 2 <==> c as int > 0xFFFF
  {
    if c as int > 0xFFFF then 2 else 1
  }

  /** The length of a joined string is the sum of the lengths of its
      parts. */
  lemma {:induction false} Utf16Concat(a: string, b: string)
    ensures Utf16Length(a + b) == Utf16Length(a) + Utf16Length(b)
    decreases |a|
  {
    if |a| > 0 {
      assert (a + b)[0] == a[0];
      assert (a + b)[1..] == a[1..] + b;
      Utf16Concat(a[1..], b);
    } else {
      assert a + b == b;
    }
  }

  /** The length counts every character by the code units it takes: one
      character alone, and any string character by character from the
      front or from the back. */
  lemma Utf16Counts(c: char, s: string)
    ensures Utf16Length([c]) == CodeUnits(c)
    ensures Utf16Length([c] + s) == CodeUnits(c) + Utf16Length(s)
    ensures Utf16Length(s + [c]) == Utf16Length(s) + CodeUnits(c)
  {
    assert [c][1..] == [];
    Utf16Concat([c], s);
    Utf16Concat(s, [c]);
  }

  /** `part` occurs in `s` as a contiguous piece. */
  predicate Contains(s: string, part: string) {
    exists i :: 0 <= i <= |s| && part <= s[i..]
  }

  /** A text assembled around two inserted values contains both. */
  lemma ContainsBoth(a: string, x: string, b: string, y: string, c: string)
    ensures Contains(a + x + b + y + c, x) && Contains(a + x + b + y + c, y)
  {
    ContainsPiece(a, x, b + y + c);
    ContainsPiece(a + x + b, y, c);
    assert a + x + b + y + c == a + x + (b + y + c);
  }

  /** A text that ends with its second inserted value contains both. */
  lemma ContainsBothLast(a: string, x: string, b: string, y: string)
    ensures Contains(a + x + b + y, x) && Contains(a + x + b + y, y)
  {
    ContainsPiece(a, x, b + y);
    ContainsPiece(a + x + b, y, []);
    assert a + x + b + y == a + x + (b + y);
    assert a + x + b + y + [] == a + x + b + y;
  }

  /** A string contains every piece it is assembled from. */
  lemma ContainsPiece(pre: string, part: string, post: string)
    ensures Contains(pre + part + post, part)
  {
    var s := pre + part + post;
    assert s[|pre|..] == part + post;
  }
}
