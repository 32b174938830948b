/**
 * The JavaScript string operations the services rely on: `trim`, `split`,
 * `toLowerCase`, `includes`, `startsWith`, decimal digits and number printing.
 * Whitespace is the ASCII set (space, tab, line feed, carriage return, form
 * feed, vertical tab); letters are ASCII letters.
 */
module Strings {

  predicate IsWhitespace(c: char)
  {
    c == ' ' || c == '\t' || c == '\n' || c == '\r' || c == '\U{000C}' || c == '\U{000B}'
  }

  predicate IsDigit(c: char)
  {
    '0' <= c <= '9'
  }

  predicate HasNoWhitespace(s: string)
  {
    forall i :: 0 <= i < |s| ==> !IsWhitespace(s[i])
  }

  predicate AllDigits(s: string)
  {
    forall i :: 0 <= i < |s| ==> IsDigit(s[i])
  }

  predicate StartsWith(s: string, prefix: string)
  {
    |prefix| <= |s| && s[..|prefix|] == prefix
  }

  predicate EndsWith(s: string, suffix: string)
  {
    |suffix| <= |s| && s[|s| - |suffix|..] == suffix
  }

  // ---------------------------------------------------------------------------
  // Substring search (`String.prototype.includes`)
  // ---------------------------------------------------------------------------

  /** `needle` occurs somewhere in `s`. */
  ghost predicate OccursIn(needle: string, s: string)
  {
    exists i, j :: 0 <= i <= j <= |s| && s[i..j] == needle
  }

  /** `s.includes(needle)`, by scanning the start positions from left to right. */
  function Contains(s: string, needle: string): (b: bool)
    decreases |s|
  {
    if |s| < |needle| then false
    else if s[..|needle|] == needle then true
    else Contains(s[1..], needle)
  }

  lemma {:induction false} ContainsIsOccursIn(s: string, needle: string)
    ensures Contains(s, needle) <==> OccursIn(needle, s)
    decreases |s|
  {
    if |s| >= |needle| {
      if s[..|needle|] == needle {
        assert s[0..|needle|] == needle;
      } else {
        ContainsIsOccursIn(s[1..], needle);
        if OccursIn(needle, s[1..]) {
          var i, j :| 0 <= i <= j <= |s[1..]| && s[1..][i..j] == needle;
          assert s[i + 1..j + 1] == needle;
        }
        if OccursIn(needle, s) {
          var i, j :| 0 <= i <= j <= |s| && s[i..j] == needle;
          if i > 0 {
            assert s[1..][i - 1..j - 1] == needle;
          }
        }
      }
    }
  }

  /** A string that begins with the needle contains it. */
  lemma ContainsPrefix(s: string, needle: string)
    requires StartsWith(s, needle)
    ensures Contains(s, needle)
  {
  }

  /** Appending text never removes an occurrence. */
  lemma {:induction false} ContainsExtend(s: string, t: string, needle: string)
    requires Contains(s, needle)
    ensures Contains(s + t, needle)
    decreases |s|
  {
    if s[..|needle|] == needle {
      assert (s + t)[..|needle|] == needle;
    } else {
      ContainsExtend(s[1..], t, needle);
      assert (s + t)[1..] == s[1..] + t;
    }
  }

  /** An occurrence in the second part of a concatenation is an occurrence in the whole. */
  lemma {:induction false} ContainsAfter(a: string, b: string, needle: string)
    requires Contains(b, needle)
    ensures Contains(a + b, needle)
    decreases |a|
  {
    if a != [] {
      assert |b| >= |needle|;
      ContainsAfter(a[1..], b, needle);
      assert (a + b)[1..] == a[1..] + b;
    } else {
      assert a + b == b;
    }
  }

  // ---------------------------------------------------------------------------
  // Trimming (`String.prototype.trim`)
  // ---------------------------------------------------------------------------

  function TrimStart(s: string): (r: string)
    ensures |r| <= |s| && r == s[|s| - |r|..]
    ensures r == [] || !IsWhitespace(r[0])
    ensures forall i :: 0 <= i < |s| - |r| ==> IsWhitespace(s[i])
    decreases |s|
  {
    if s != [] && IsWhitespace(s[0]) then TrimStart(s[1..]) else s
  }

  function TrimEnd(s: string): (r: string)
    ensures |r| <= |s| && r == s[..|r|]
    ensures r == [] || !IsWhitespace(r[|r| - 1])
    ensures forall i :: |r| <= i < |s| ==> IsWhitespace(s[i])
    decreases |s|
  {
    if s != [] && IsWhitespace(s[|s| - 1]) then TrimEnd(s[..|s| - 1]) else s
  }

  /** `r` is the slice of `s` from `a` on, and only whitespace of `s` lies outside it. */
  ghost predicate IsTrimmedSlice(s: string, r: string, a: nat)
  {
    && a + |r| <= |s| && r == s[a..a + |r|]
    && (forall i :: 0 <= i < a ==> IsWhitespace(s[i]))
    && (forall i :: a + |r| <= i < |s| ==> IsWhitespace(s[i]))
  }

  /**
   * `s.trim()`: the result is the slice of `s` that remains once the
   * whitespace on both ends is cut off; it begins and ends with a
   * non-whitespace character, and everything cut off was whitespace.
   */
  function Trim(s: string): (r: string)
    ensures exists a :: IsTrimmedSlice(s, r, a)
    ensures r == [] || (!IsWhitespace(r[0]) && !IsWhitespace(r[|r| - 1]))
  {
    var t := TrimStart(s);
    var r := TrimEnd(t);
    var a := |s| - |t|;
    assert IsTrimmedSlice(s, r, a);
    r
  }

  /** Trimming is idempotent. */
  lemma TrimIdempotent(s: string)
    ensures Trim(Trim(s)) == Trim(s)
  {
    var r := Trim(s);
    assert TrimStart(r) == r;
    assert TrimEnd(r) == r;
  }

  // ---------------------------------------------------------------------------
  // Lower case (`String.prototype.toLowerCase`, ASCII letters)
  // ---------------------------------------------------------------------------

  function ToLowerChar(c: char): char
  {
    if 'A' <= c <= 'Z' then (c as int + 32) as char else c
  }

  function ToLower(s: string): (r: string)
    ensures |r| == |s|
    ensures forall i :: 0 <= i < |s| ==> r[i] == ToLowerChar(s[i])
  {
    seq(|s|, i requires 0 <= i < |s| => ToLowerChar(s[i]))
  }

  predicate IsLowerCase(s: string)
  {
    ToLower(s) == s
  }

  // ---------------------------------------------------------------------------
  // Splitting (`String.prototype.split` on one character) and joining
  // ---------------------------------------------------------------------------

  /**
   * `s.split(sep)` for a one-character separator: the pieces between the
   * separators, so there is always at least one piece, and `""` splits into
   * `[""]`.
   */
  function SplitOn(s: string, sep: char): (parts: seq<string>)
    ensures |parts| >= 1
    ensures forall i :: 0 <= i < |parts| ==> sep !in parts[i]
    decreases |s|
  {
    if s == [] then [""]
    else
      var rest := SplitOn(s[1..], sep);
      if s[0] == sep then [""] + rest
      else [[s[0]] + rest[0]] + rest[1..]
  }

  /** `parts.join(sep)`. */
  function JoinWith(parts: seq<string>, sep: char): string
    requires |parts| >= 1
    decreases |parts|
  {
    if |parts| == 1 then parts[0] else parts[0] + [sep] + JoinWith(parts[1..], sep)
  }

  /** Joining the pieces of a split with the same separator gives back the string. */
  lemma {:induction false} JoinSplit(s: string, sep: char)
    ensures JoinWith(SplitOn(s, sep), sep) == s
    decreases |s|
  {
    if s != [] {
      var rest := SplitOn(s[1..], sep);
      JoinSplit(s[1..], sep);
      if s[0] == sep {
        assert SplitOn(s, sep)[1..] == rest;
      } else {
        JoinConsFirst(rest, s[0], sep);
        assert SplitOn(s, sep) == [[s[0]] + rest[0]] + rest[1..];
      }
    }
  }

  lemma JoinConsFirst(parts: seq<string>, c: char, sep: char)
    requires |parts| >= 1
    ensures JoinWith([[c] + parts[0]] + parts[1..], sep) == [c] + JoinWith(parts, sep)
  {
    var q := [[c] + parts[0]] + parts[1..];
    assert q[1..] == parts[1..];
  }

  /** Splitting a string that holds no separator gives the string back whole. */
  lemma {:induction false} SplitWithoutSeparator(s: string, sep: char)
    requires sep !in s
    ensures SplitOn(s, sep) == [s]
    decreases |s|
  {
    if s != [] {
      assert sep !in s[1..];
      SplitWithoutSeparator(s[1..], sep);
      assert [s[0]] + s[1..] == s;
    }
  }

  // ---------------------------------------------------------------------------
  // First whitespace-delimited token (`line.split(/\s+/)[0]` on a trimmed line)
  // ---------------------------------------------------------------------------

  /** The longest prefix of `s` that holds no whitespace. */
  function FirstToken(s: string): (r: string)
    ensures StartsWith(s, r) && HasNoWhitespace(r)
    ensures |r| == |s| || IsWhitespace(s[|r|])
    decreases |s|
  {
    if s == [] || IsWhitespace(s[0]) then "" else [s[0]] + FirstToken(s[1..])
  }

  // ---------------------------------------------------------------------------
  // Decimal digits and number printing
  // ---------------------------------------------------------------------------

  function DigitValue(c: char): nat
    requires IsDigit(c)
  {
    c as int - '0' as int
  }

  function DigitChar(d: nat): (c: char)
    requires d < 10
    ensures IsDigit(c) && DigitValue(c) == d
  {
    ('0' as int + d) as char
  }

  /** The number a string of decimal digits denotes (most significant first). */
  function DigitsValue(ds: string): nat
    requires AllDigits(ds)
    decreases |ds|
  {
    if ds == [] then 0 else DigitsValue(ds[..|ds| - 1]) * 10 + DigitValue(ds[|ds| - 1])
  }

  function Pow10(n: nat): (r: nat)
    ensures r >= 1
  {
    if n == 0 then 1 else 10 * Pow10(n - 1)
  }

  /** The length of the longest prefix of `s` made of decimal digits. */
  function DigitRun(s: string): (n: nat)
    ensures n <= |s| && AllDigits(s[..n])
    ensures n == |s| || !IsDigit(s[n])
    decreases |s|
  {
    if s == [] || !IsDigit(s[0]) then 0
    else
      var k := DigitRun(s[1..]);
      assert s[..k + 1] == [s[0]] + s[1..][..k];
      k + 1
  }

  /** The digit run of digits followed by a non-digit is exactly those digits. */
  lemma {:induction false} DigitRunOfDigits(ds: string, rest: string)
    requires AllDigits(ds)
    requires rest == [] || !IsDigit(rest[0])
    ensures DigitRun(ds + rest) == |ds|
    decreases |ds|
  {
    if ds != [] {
      assert (ds + rest)[1..] == ds[1..] + rest;
      DigitRunOfDigits(ds[1..], rest);
    }
  }

  /** Decimal representation of a natural number, without leading zeros. */
  function NatToString(n: nat): (s: string)
    ensures |s| >= 1 && AllDigits(s)
    decreases n
  {
    if n < 10 then [DigitChar(n)] else NatToString(n / 10) + [DigitChar(n % 10)]
  }

  /** Reading back the printed digits gives the number. */
  lemma {:induction false} NatToStringValue(n: nat)
    ensures DigitsValue(NatToString(n)) == n
    decreases n
  {
    if n >= 10 {
      var s := NatToString(n);
      NatToStringValue(n / 10);
      assert s[..|s| - 1] == NatToString(n / 10);
    }
  }

  /** `String(n)` for an integer. */
  function IntToString(n: int): (s: string)
    ensures n >= 0 ==> s == NatToString(n)
    ensures n < 0 ==> s == "-" + NatToString(-n)
  {
    if n >= 0 then NatToString(n) else "-" + NatToString(-n)
  }
}
