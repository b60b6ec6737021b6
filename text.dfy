/**
 * Models of the Kotlin standard-library string operations that the Android side
 * of the bridge relies on: `trim`, `isBlank`, `lines`, `startsWith`, `contains`
 * (also with `ignoreCase`), `removePrefix`, `indexOf` and `Int.toString`.
 * Strings are sequences of Unicode scalar values (`char`); Kotlin counts UTF-16
 * code units, and the two agree on text inside the Basic Multilingual Plane.
 */
module Text {

  /** Sequence of characters, as Kotlin's `String`. */
  type Str = seq<char>

  /** Kotlin's `Char.isWhitespace` (Java's `isWhitespace` or `isSpaceChar`):
      tab, line feed, vertical tab, form feed, carriage return, the four
      information separators, and the Unicode space, line and paragraph
      separators (space, no-break space, ogham space mark, U+2000 to U+200A,
      line and paragraph separator, narrow no-break space, medium mathematical
      space, ideographic space). */
  predicate IsWhitespace(c: char) {
    c == ' ' || ('\t' <= c <= '\r') || (28 <= c as int <= 31) ||
    c as int == 0xA0 || c as int == 0x1680 || (0x2000 <= c as int <= 0x200A) ||
    c as int == 0x2028 || c as int == 0x2029 || c as int == 0x202F ||
    c as int == 0x205F || c as int == 0x3000
  }

  /** `String.isBlank()`: every character is whitespace (true for ""). */
  predicate IsBlank(s: Str) {
    forall i :: 0 <= i < |s| ==> IsWhitespace(s[i])
  }

  /** Drops leading whitespace. */
  function TrimStart(s: Str): (r: Str)
    ensures |r| <= |s| && r == s[|s| - |r|..]
    ensures r == [] || !IsWhitespace(r[0])
    ensures forall i :: 0 <= i < |s| - |r| ==> IsWhitespace(s[i])
  {
    if |s| > 0 && IsWhitespace(s[0]) then TrimStart(s[1..]) else s
  }

  /** Drops trailing whitespace. */
  function TrimEnd(s: Str): (r: Str)
    ensures |r| <= |s| && r == s[..|r|]
    ensures r == [] || !IsWhitespace(r[|r| - 1])
    ensures forall i :: |r| <= i < |s| ==> IsWhitespace(s[i])
  {
    if |s| > 0 && IsWhitespace(s[|s| - 1]) then TrimEnd(s[..|s| - 1]) else s
  }

  /** `sub` occurs in `s` starting at index `i`. */
  predicate OccursAt(s: Str, sub: Str, i: int) {
    0 <= i <= |s| - |sub| && s[i..i + |sub|] == sub
  }

  /** `String.trim()`: drops whitespace at both ends. */
  function Trim(s: Str): (r: Str)
    ensures r == [] || (!IsWhitespace(r[0]) && !IsWhitespace(r[|r| - 1]))
  {
    TrimEnd(TrimStart(s))
  }

  /** What trimming keeps: `s` is blank, then the trimmed string, then blank. */
  lemma TrimShape(s: Str)
    ensures exists k :: OccursAt(s, Trim(s), k) && IsBlank(s[..k]) && IsBlank(s[k + |Trim(s)|..])
  {
    var t := TrimStart(s);
    var r := TrimEnd(t);
    var k := |s| - |t|;
    assert s[k..] == t;
    assert s[k..k + |r|] == t[..|r|];
    var head, tail := s[..k], s[k + |r|..];
    assert IsBlank(head) by {
      forall i | 0 <= i < |head| ensures IsWhitespace(head[i]) {
        assert head[i] == s[i];
      }
    }
    assert IsBlank(tail) by {
      forall i | 0 <= i < |tail| ensures IsWhitespace(tail[i]) {
        assert tail[i] == t[|r| + i];
      }
    }
    assert OccursAt(s, r, k);
  }

  /** After trimming, blank and empty coincide (this is why the source may test
      either `isEmpty()` or `isBlank()` on a trimmed value). */
  lemma TrimmedBlankIsEmpty(s: Str)
    ensures IsBlank(Trim(s)) <==> Trim(s) == []
  {
    var r := Trim(s);
    if r != [] {
      assert !IsWhitespace(r[0]);
    }
  }

  /** Trimming twice is trimming once. */
  lemma {:induction false} TrimIdempotent(s: Str)
    ensures Trim(Trim(s)) == Trim(s)
  {
    var r := Trim(s);
    assert TrimStart(r) == r;
    assert TrimEnd(r) == r;
  }

  /** `startsWith(prefix)`. */
  predicate StartsWith(s: Str, prefix: Str) {
    |prefix| <= |s| && s[..|prefix|] == prefix
  }

  /** `contains(sub)`: `sub` occurs at some position of `s`. */
  predicate Contains(s: Str, sub: Str)
    decreases |s|
  {
    StartsWith(s, sub) || (|s| > 0 && Contains(s[1..], sub))
  }

  /** `Contains` is exactly "occurs at some index". */
  lemma {:induction false} ContainsIffOccurs(s: Str, sub: Str)
    ensures Contains(s, sub) <==> exists i :: OccursAt(s, sub, i)
    decreases |s|
  {
    if StartsWith(s, sub) {
      assert OccursAt(s, sub, 0);
    } else if |s| > 0 {
      ContainsIffOccurs(s[1..], sub);
      if exists i :: OccursAt(s, sub, i) {
        var i :| OccursAt(s, sub, i);
        assert i != 0;
        assert OccursAt(s[1..], sub, i - 1);
      }
      if Contains(s[1..], sub) {
        var j :| OccursAt(s[1..], sub, j);
        assert OccursAt(s, sub, j + 1);
      }
    } else {
      assert forall i :: OccursAt(s, sub, i) ==> i == 0 && StartsWith(s, sub);
    }
  }

  /** ASCII lower-casing of one character. */
  function LowerChar(c: char): char {
    if 'A' <= c <= 'Z' then (c as int + 32) as char else c
  }

  function Lower(s: Str): (r: Str)
    ensures |r| == |s| && forall i :: 0 <= i < |s| ==> r[i] == LowerChar(s[i])
  {
    seq(|s|, i requires 0 <= i < |s| => LowerChar(s[i]))
  }

  /** `contains(sub, ignoreCase = true)` for a lower-case ASCII pattern such as
      "dummy": no character outside ASCII upper- or lower-cases to an ASCII
      letter of such a pattern, so folding the ASCII range is exact. */
  predicate ContainsIgnoreCase(s: Str, lowerSub: Str) {
    Contains(Lower(s), lowerSub)
  }

  /** The line separators recognised by `String.lines()`. */
  predicate IsLineSeparator(c: char) {
    c == '\n' || c == '\r'
  }

  /** `String.lines()` up to empty lines: splits at every '\n' and every '\r'.
      Kotlin treats "\r\n" as one separator; splitting at both characters only
      adds an empty string between them, and every caller in the source drops
      blank lines, so the filtered results agree. */
  function SplitLines(s: Str): (r: seq<Str>)
    ensures |r| >= 1
    ensures forall k, i :: 0 <= k < |r| && 0 <= i < |r[k]| ==> !IsLineSeparator(r[k][i])
  {
    if |s| == 0 then [[]]
    else
      var rest := SplitLines(s[1..]);
      if IsLineSeparator(s[0]) then [[]] + rest
      else [[s[0]] + rest[0]] + rest[1..]
  }

  /** `filter { it.isNotBlank() }`, order preserved. */
  function FilterNonBlank(ls: seq<Str>): (r: seq<Str>)
    ensures |r| <= |ls|
    ensures forall k :: 0 <= k < |r| ==> !IsBlank(r[k]) && r[k] in ls
  {
    if ls == [] then []
    else if IsBlank(ls[0]) then FilterNonBlank(ls[1..])
    else [ls[0]] + FilterNonBlank(ls[1..])
  }

  /** Filtering drops only blank lines. */
  lemma {:induction false} FilterNonBlankKeeps(ls: seq<Str>, x: Str)
    requires x in ls && !IsBlank(x)
    ensures x in FilterNonBlank(ls)
  {
    if ls[0] != x {
      FilterNonBlankKeeps(ls[1..], x);
    }
  }

  /** Filtering distributes over concatenation: it keeps relative order. */
  lemma {:induction false} FilterNonBlankAppend(a: seq<Str>, b: seq<Str>)
    ensures FilterNonBlank(a + b) == FilterNonBlank(a) + FilterNonBlank(b)
  {
    if a == [] {
      assert a + b == b;
    } else {
      assert (a + b)[1..] == a[1..] + b;
      FilterNonBlankAppend(a[1..], b);
    }
  }

  /** `joinToString(sep)`; with the empty separator, the concatenation a
      `StringBuilder` accumulates. The first part is a prefix of the result. */
  function Join(parts: seq<Str>, sep: Str): (r: Str)
    ensures parts == [] ==> r == []
    ensures |parts| == 1 ==> r == parts[0]
    ensures |parts| > 0 ==> |parts[0]| <= |r| && r[..|parts[0]|] == parts[0]
  {
    if parts == [] then []
    else if |parts| == 1 then parts[0]
    else parts[0] + sep + Join(parts[1..], sep)
  }

  /** `removePrefix(prefix)`. */
  function RemovePrefix(s: Str, prefix: Str): (r: Str)
    ensures StartsWith(s, prefix) ==> prefix + r == s
    ensures !StartsWith(s, prefix) ==> r == s
  {
    if StartsWith(s, prefix) then s[|prefix|..] else s
  }

  /** `indexOf(c, from)`: the first index >= from holding `c`, or -1. */
  function IndexOfFrom(s: Str, c: char, from: nat): (r: int)
    ensures r == -1 || (from <= r < |s| && s[r] == c)
    ensures r == -1 ==> forall i :: from <= i < |s| ==> s[i] != c
    ensures r != -1 ==> forall i :: from <= i < r ==> s[i] != c
    decreases |s| - from
  {
    if from >= |s| then -1
    else if s[from] == c then from
    else IndexOfFrom(s, c, from + 1)
  }

  // ---- decimal rendering of integers (Kotlin string templates "$n") ----

  predicate IsDigit(c: char) {
    '0' <= c <= '9'
  }

  function DigitChar(d: nat): char
    requires d < 10
  {
    ('0' as int + d) as char
  }

  function DigitValue(c: char): nat
    requires IsDigit(c)
  {
    c as int - '0' as int
  }

  /** Decimal digits of a natural number, most significant first, no leading zeros. */
  function Digits(n: nat): (r: Str)
    ensures |r| >= 1 && forall i :: 0 <= i < |r| ==> IsDigit(r[i])
  {
    if n < 10 then [DigitChar(n)] else Digits(n / 10) + [DigitChar(n % 10)]
  }

  /** `Int.toString()`: a '-' before the digits of a negative number. */
  function DecimalString(n: int): (r: Str)
    ensures |r| >= 1
    ensures r[0] == '-' <==> n < 0
    ensures forall i :: (if n < 0 then 1 else 0) <= i < |r| ==> IsDigit(r[i])
  {
    if n < 0 then ['-'] + Digits(-n) else Digits(n)
  }

  /** The value of a string of decimal digits. */
  function ParseDigits(s: Str): int
    requires forall i :: 0 <= i < |s| ==> IsDigit(s[i])
  {
    if s == [] then 0 else ParseDigits(s[..|s| - 1]) * 10 + DigitValue(s[|s| - 1])
  }

  function ParseDecimal(s: Str): int
    requires |s| >= 1
    requires s[0] == '-' ==> forall i :: 1 <= i < |s| ==> IsDigit(s[i])
    requires s[0] != '-' ==> forall i :: 0 <= i < |s| ==> IsDigit(s[i])
  {
    if s[0] == '-' then -ParseDigits(s[1..]) else ParseDigits(s)
  }

  lemma {:induction false} ParseDigitsOfDigits(n: nat)
    ensures ParseDigits(Digits(n)) == n
  {
    if n >= 10 {
      var d := Digits(n / 10);
      assert (d + [DigitChar(n % 10)])[..|d|] == d;
      ParseDigitsOfDigits(n / 10);
    }
  }

  /** Decimal rendering round-trips through parsing. */
  lemma DecimalRoundTrip(n: int)
    ensures var s := DecimalString(n);
            (s[0] == '-' ==> forall i :: 1 <= i < |s| ==> IsDigit(s[i])) &&
            (s[0] != '-' ==> forall i :: 0 <= i < |s| ==> IsDigit(s[i])) &&
            ParseDecimal(s) == n
  {
    if n < 0 {
      assert (['-'] + Digits(-n))[1..] == Digits(-n);
      ParseDigitsOfDigits(-n);
    } else {
      ParseDigitsOfDigits(n);
    }
  }

  /** Distinct integers render to distinct strings. */
  lemma DecimalInjective(a: int, b: int)
    requires DecimalString(a) == DecimalString(b)
    ensures a == b
  {
    DecimalRoundTrip(a);
    DecimalRoundTrip(b);
  }
}
