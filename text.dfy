/**
 * The Kotlin standard-library string operations the application relies on:
 * `indexOf`, `substringBefore`/`substringAfter`, `contains(ignoreCase = true)`,
 * `lowercase`/`uppercase`, `String.compareTo`, `trim`, `toString` of an Int,
 * `toIntOrNull` and `"%02d"` formatting. Case folding and whitespace cover
 * ASCII only.
 */
module Text {
  import opened Wrappers

  // ---------------------------------------------------------------------------
  // Searching
  // ---------------------------------------------------------------------------

  /** `p` occurs in `s` starting at index `i`. */
  predicate OccursAt(s: string, p: string, i: nat) {
    i + |p| <= |s| && s[i..i + |p|] == p
  }

  /** The first index at or after `i` where `p` occurs in `s`. */
  function IndexFrom(s: string, p: string, i: nat): (r: Option<nat>)
    requires i <= |s|
    decreases |s| - i
    ensures r.Some? ==> i <= r.value && OccursAt(s, p, r.value)
    ensures r.Some? ==> forall j :: i <= j < r.value ==> !OccursAt(s, p, j)
    ensures r.None? ==> forall j :: i <= j <= |s| ==> !OccursAt(s, p, j)
  {
    if OccursAt(s, p, i) then Some(i)
    else if i == |s| then None
    else IndexFrom(s, p, i + 1)
  }

  /** `s.indexOf(p)`: the first occurrence of `p` in `s`, if any. */
  function IndexOf(s: string, p: string): (r: Option<nat>)
    ensures r.Some? ==> OccursAt(s, p, r.value) && forall j :: 0 <= j < r.value ==> !OccursAt(s, p, j)
    ensures r.None? ==> forall j :: 0 <= j <= |s| ==> !OccursAt(s, p, j)
  {
    IndexFrom(s, p, 0)
  }

  /** An occurrence with none before it is the one `IndexOf` finds. */
  lemma FirstOccurrence(s: string, p: string, k: nat)
    requires OccursAt(s, p, k)
    requires forall j :: 0 <= j < k ==> !OccursAt(s, p, j)
    ensures IndexOf(s, p) == Some(k)
  {
  }

  /** `s.substringAfter(d, missing)`: the text after the first `d`, or `missing`. */
  function SubstringAfter(s: string, d: string, missing: string): (r: string)
    ensures IndexOf(s, d).Some? ==> r == s[IndexOf(s, d).value + |d|..]
    ensures IndexOf(s, d).None? ==> r == missing
  {
    match IndexOf(s, d)
    case Some(k) => s[k + |d|..]
    case None => missing
  }

  /** `s.substringBefore(d, missing)`: the text before the first `d`, or `missing`. */
  function SubstringBefore(s: string, d: string, missing: string): (r: string)
    ensures IndexOf(s, d).Some? ==> r == s[..IndexOf(s, d).value]
    ensures IndexOf(s, d).None? ==> r == missing
  {
    match IndexOf(s, d)
    case Some(k) => s[..k]
    case None => missing
  }

  /** `s.substringBefore(d)` when `s` is `a + d + b` and `d` does not occur before. */
  lemma BeforeFirst(a: string, d: string, b: string)
    requires forall j :: 0 <= j < |a| ==> !OccursAt(a + d + b, d, j)
    ensures SubstringBefore(a + d + b, d, a + d + b) == a
    ensures SubstringAfter(a + d + b, d, a + d + b) == b
  {
    var s := a + d + b;
    assert s[|a|..|a| + |d|] == d;
    FirstOccurrence(s, d, |a|);
    assert s[..|a|] == a;
    assert s[|a| + |d|..] == b;
  }

  /** A one-character delimiter that `a` does not contain is first found right after `a`. */
  lemma BeforeFirstChar(a: string, c: char, b: string)
    requires c !in a
    ensures SubstringBefore(a + [c] + b, [c], a + [c] + b) == a
    ensures SubstringAfter(a + [c] + b, [c], a + [c] + b) == b
  {
    var s := a + [c] + b;
    forall j | 0 <= j < |a|
      ensures !OccursAt(s, [c], j)
    {
      assert s[j] == a[j];
      assert s[j..j + 1] == [a[j]];
    }
    BeforeFirst(a, [c], b);
  }

  /** A one-character delimiter is found exactly when the character occurs, at its first position. */
  lemma IndexOfChar(s: string, c: char)
    ensures IndexOf(s, [c]).None? <==> c !in s
    ensures IndexOf(s, [c]).Some? ==> s[IndexOf(s, [c]).value] == c && c !in s[..IndexOf(s, [c]).value]
  {
    forall j | 0 <= j < |s| ensures OccursAt(s, [c], j) <==> s[j] == c {
      assert s[j..j + 1] == [s[j]];
    }
  }

  // ---------------------------------------------------------------------------
  // ASCII case folding
  // ---------------------------------------------------------------------------

  function LowerChar(c: char): char {
    if 'A' <= c <= 'Z' then (c as int + 32) as char else c
  }

  function UpperChar(c: char): char {
    if 'a' <= c <= 'z' then (c as int - 32) as char else c
  }

  /** `s.lowercase()` on ASCII letters. */
  function Lower(s: string): (r: string)
    ensures |r| == |s|
    ensures forall i :: 0 <= i < |s| ==> r[i] == LowerChar(s[i])
  {
    seq(|s|, i requires 0 <= i < |s| => LowerChar(s[i]))
  }

  /** `s.contains(p, ignoreCase = true)` on ASCII letters. */
  predicate ContainsIgnoreCase(s: string, p: string) {
    IndexOf(Lower(s), Lower(p)).Some?
  }

  /** Every string contains the empty string. */
  lemma ContainsEmpty(s: string)
    ensures ContainsIgnoreCase(s, "")
  {
    assert OccursAt(Lower(s), Lower(""), 0);
  }

  // ---------------------------------------------------------------------------
  // Lexicographic order (`String.compareTo`)
  // ---------------------------------------------------------------------------

  /** `a < b` as Kotlin compares strings: character by character, a proper prefix first. */
  predicate StrLess(a: string, b: string) {
    if |b| == 0 then false
    else if |a| == 0 then true
    else if a[0] != b[0] then a[0] < b[0]
    else StrLess(a[1..], b[1..])
  }

  lemma {:induction false} StrLessIrreflexive(a: string)
    ensures !StrLess(a, a)
  {
    if |a| > 0 {
      StrLessIrreflexive(a[1..]);
    }
  }

  lemma {:induction false} StrLessTransitive(a: string, b: string, c: string)
    requires StrLess(a, b) && StrLess(b, c)
    ensures StrLess(a, c)
  {
    if |a| > 0 && a[0] == b[0] && b[0] == c[0] {
      StrLessTransitive(a[1..], b[1..], c[1..]);
    }
  }

  lemma {:induction false} StrLessTotal(a: string, b: string)
    requires a != b
    ensures StrLess(a, b) || StrLess(b, a)
  {
    if |a| > 0 && |b| > 0 && a[0] == b[0] {
      assert a == [a[0]] + a[1..] && b == [b[0]] + b[1..];
      StrLessTotal(a[1..], b[1..]);
    }
  }

  // ---------------------------------------------------------------------------
  // Whitespace and `trim`
  // ---------------------------------------------------------------------------

  /** `Char.isWhitespace()` restricted to the ASCII range. */
  predicate IsWhitespace(c: char) {
    c == ' ' || c == '\t' || c == '\n' || c == '\U{B}' || c == '\U{C}' || c == '\r'
    || ('\U{1C}' <= c <= '\U{1F}')
  }

  predicate AllWhitespace(s: string) {
    forall i :: 0 <= i < |s| ==> IsWhitespace(s[i])
  }

  function TrimStart(s: string): (r: string)
    ensures |r| <= |s| && r == s[|s| - |r|..]
    ensures r == [] || !IsWhitespace(r[0])
    ensures AllWhitespace(s[..|s| - |r|])
  {
    if s == [] || !IsWhitespace(s[0]) then s
    else
      var r := TrimStart(s[1..]);
      assert s[1..][..|s| - 1 - |r|] == s[1..|s| - |r|];
      r
  }

  function TrimEnd(s: string): (r: string)
    ensures |r| <= |s| && r == s[..|r|]
    ensures r == [] || !IsWhitespace(r[|r| - 1])
    ensures AllWhitespace(s[|r|..])
  {
    if s == [] || !IsWhitespace(s[|s| - 1]) then s
    else
      var r := TrimEnd(s[..|s| - 1]);
      assert s[..|s| - 1][|r|..] == s[|r|..|s| - 1];
      r
  }

  /** `s.trim()`: leading and trailing whitespace removed. */
  function Trim(s: string): (r: string)
    ensures r == [] || (!IsWhitespace(r[0]) && !IsWhitespace(r[|r| - 1]))
  {
    TrimEnd(TrimStart(s))
  }

  lemma {:induction false} TrimStartSkipsWhitespace(w: string, s: string)
    requires AllWhitespace(w)
    ensures TrimStart(w + s) == TrimStart(s)
  {
    if w != [] {
      assert (w + s)[0] == w[0] && IsWhitespace(w[0]);
      assert (w + s)[1..] == w[1..] + s;
      assert TrimStart(w + s) == TrimStart(w[1..] + s);
      TrimStartSkipsWhitespace(w[1..], s);
    } else {
      assert w + s == s;
    }
  }

  lemma {:induction false} TrimEndSkipsWhitespace(s: string, w: string)
    requires AllWhitespace(w)
    ensures TrimEnd(s + w) == TrimEnd(s)
  {
    if w != [] {
      var v := w[..|w| - 1];
      assert (s + w)[|s + w| - 1] == w[|w| - 1] && IsWhitespace(w[|w| - 1]);
      assert (s + w)[..|s + w| - 1] == s + v;
      assert TrimEnd(s + w) == TrimEnd(s + v);
      TrimEndSkipsWhitespace(s, v);
    } else {
      assert s + w == s;
    }
  }

  /** Trailing text after a non-blank start survives `TrimStart` unchanged. */
  lemma {:induction false} TrimStartAppend(s: string, w: string)
    ensures TrimStart(s + w) == TrimStart(s) + w || (AllWhitespace(s) && TrimStart(s) == [])
  {
    if s == [] {
    } else if !IsWhitespace(s[0]) {
    } else {
      assert (s + w)[1..] == s[1..] + w;
      TrimStartAppend(s[1..], w);
    }
  }

  /** Leading whitespace is skipped whatever follows it. */
  lemma TrimStartPadded(w1: string, s: string, w2: string)
    requires AllWhitespace(w1)
    ensures TrimStart(w1 + s + w2) == TrimStart(s + w2)
  {
    ConcatAssoc(w1, s, w2);
    TrimStartSkipsWhitespace(w1, s + w2);
  }

  lemma ConcatAssoc(a: string, b: string, c: string)
    ensures a + b + c == a + (b + c)
  {
  }

  /** Trailing whitespace is gone once both ends are trimmed. */
  lemma TrimEndPadded(s: string, w2: string)
    requires AllWhitespace(w2)
    ensures TrimEnd(TrimStart(s + w2)) == TrimEnd(TrimStart(s))
  {
    TrimStartAppend(s, w2);
    if TrimStart(s + w2) == TrimStart(s) + w2 {
      TrimEndSkipsWhitespace(TrimStart(s), w2);
    } else {
      TrimStartSkipsWhitespace(s, w2);
      TrimStartSkipsWhitespace(w2, []);
      assert w2 + [] == w2;
    }
  }

  /** Surrounding whitespace does not change what `trim` returns. */
  lemma TrimIgnoresPadding(w1: string, s: string, w2: string)
    requires AllWhitespace(w1) && AllWhitespace(w2)
    ensures Trim(w1 + s + w2) == Trim(s)
  {
    TrimStartPadded(w1, s, w2);
    TrimEndPadded(s, w2);
  }

  // ---------------------------------------------------------------------------
  // Decimal numbers
  // ---------------------------------------------------------------------------

  const MinInt: int := -0x8000_0000
  const MaxInt: int := 0x7FFF_FFFF

  predicate IsDigit(c: char) {
    '0' <= c <= '9'
  }

  predicate AllDigits(s: string) {
    forall i :: 0 <= i < |s| ==> IsDigit(s[i])
  }

  function DigitChar(d: nat): (c: char)
    requires d < 10
    ensures IsDigit(c) && c as int - '0' as int == d
  {
    ('0' as int + d) as char
  }

  /** The decimal value of a string of digits. */
  function DigitsValue(s: string): nat
    requires AllDigits(s)
  {
    if s == [] then 0
    else DigitsValue(s[..|s| - 1]) * 10 + (s[|s| - 1] as int - '0' as int)
  }

  /** `n.toString()` for a non-negative Int. */
  function NatToString(n: nat): (r: string)
    ensures |r| >= 1 && AllDigits(r)
  {
    if n < 10 then [DigitChar(n)] else NatToString(n / 10) + [DigitChar(n % 10)]
  }

  lemma {:induction false} NatToStringValue(n: nat)
    ensures DigitsValue(NatToString(n)) == n
  {
    if n >= 10 {
      var s := NatToString(n);
      assert s[..|s| - 1] == NatToString(n / 10);
      NatToStringValue(n / 10);
    }
  }

  /** `n.toString()` for any Int. */
  function IntToString(n: int): string {
    if n < 0 then "-" + NatToString(-n) else NatToString(n)
  }

  /** `s.toIntOrNull()` (radix 10, ASCII digits): an optional sign, digits, and the 32-bit range. */
  function ParseInt(s: string): (r: Option<int>)
    ensures r.Some? ==> MinInt <= r.value <= MaxInt
  {
    if s == [] then None
    else
      var negative := s[0] == '-';
      var digits := if s[0] == '-' || s[0] == '+' then s[1..] else s;
      if digits == [] || !AllDigits(digits) then None
      else
        var v: int := if negative then 0 - DigitsValue(digits) else DigitsValue(digits);
        if MinInt <= v <= MaxInt then Some(v) else None
  }

  /** Printing an Int and parsing it back gives the Int again. */
  lemma ParseIntToString(n: int)
    requires MinInt <= n <= MaxInt
    ensures ParseInt(IntToString(n)) == Some(n)
  {
    if n < 0 {
      var t := NatToString(-n);
      var s := "-" + t;
      NatToStringValue(-n);
      assert s[0] == '-' && s[1..] == t;
      assert DigitsValue(t) == -n;
    } else {
      var t := NatToString(n);
      NatToStringValue(n);
      assert IsDigit(t[0]);
      assert t[0] != '-' && t[0] != '+';
    }
  }

  /** `String.format("%02d", n)`: at least two characters, zero-padded; a sign counts toward the width. */
  function Pad2(n: int): string {
    if n < 0 then "-" + NatToString(-n)
    else if n < 10 then "0" + NatToString(n)
    else NatToString(n)
  }

  /** Two digits read as a decimal number. */
  lemma TwoDigitsValue(n: nat)
    requires n < 100
    ensures DigitsValue([DigitChar(n / 10), DigitChar(n % 10)]) == n
  {
    var s := [DigitChar(n / 10), DigitChar(n % 10)];
    assert s[..1] == [DigitChar(n / 10)];
    assert s[..1][..0] == [];
    assert DigitsValue(s[..1]) == n / 10;
    assert DigitsValue(s) == (n / 10) * 10 + n % 10;
  }

  /** For 0 <= n < 100, `%02d` gives the tens digit then the units digit. */
  lemma Pad2Digits(n: int)
    requires 0 <= n < 100
    ensures Pad2(n) == [DigitChar(n / 10), DigitChar(n % 10)]
  {
    if n < 10 {
      assert DigitChar(0) == '0';
    } else {
      assert NatToString(n / 10) == [DigitChar(n / 10)];
    }
  }
}

/** Kotlin's Int/Long `/` and `%`, which truncate toward zero (Dafny's are Euclidean). */
module KotlinMath {

  /** Division rounding toward zero: the quotient times `b` lies between 0 and `a`, within `b` of `a`. */
  function TDiv(a: int, b: int): (q: int)
    requires b > 0
    ensures a >= 0 ==> q * b <= a < q * b + b
    ensures a < 0 ==> q * b - b < a <= q * b
  {
    if a >= 0 then a / b else -((-a) / b)
  }

  function TRem(a: int, b: int): (r: int)
    requires b > 0
    ensures a == TDiv(a, b) * b + r
    ensures a >= 0 ==> 0 <= r < b && r == a % b
    ensures a < 0 ==> -b < r <= 0
  {
    a - TDiv(a, b) * b
  }
}
