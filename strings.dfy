/** The parts of java.lang.String and java.lang.Integer that the core relies on:
    `contains`, `startsWith`/`endsWith`, `replace`, `trim`, `int` wrap-around,
    decimal printing, `String.format("%03d", n)` and `Integer.parseInt`. */
module Strings {
  import opened Wrappers

  const MinInt32: int := -0x8000_0000
  const MaxInt32: int := 0x7fff_ffff

  /** A Java `int`. */
  type Int32 = x: int | -0x8000_0000 <= x <= 0x7fff_ffff

  /** `x + 1` on a Java `int`: the largest value wraps to the smallest. */
  function Inc32(x: Int32): Int32 {
    if x == MaxInt32 then MinInt32 else x + 1
  }

  predicate StartsWith(s: string, prefix: string) {
    |prefix| <= |s| && s[..|prefix|] == prefix
  }

  predicate EndsWith(s: string, suffix: string) {
    |suffix| <= |s| && s[|s| - |suffix|..] == suffix
  }

  /** `s.contains(pat)`. */
  predicate Contains(s: string, pat: string)
    decreases |s|
  {
    StartsWith(s, pat) || (|s| > 0 && Contains(s[1..], pat))
  }

  /** `s.replace(pat, rep)` for a non-empty `pat`: occurrences are found left to
      right, without overlap, and each is replaced by `rep`. */
  function ReplaceAll(s: string, pat: string, rep: string): string
    requires |pat| > 0
    decreases |s|
  {
    if |s| < |pat| then s
    else if s[..|pat|] == pat then rep + ReplaceAll(s[|pat|..], pat, rep)
    else [s[0]] + ReplaceAll(s[1..], pat, rep)
  }

  /** Replacing a pattern that does not occur changes nothing. */
  lemma {:induction false} ReplaceAllAbsent(s: string, pat: string, rep: string)
    requires |pat| > 0 && !Contains(s, pat)
    ensures ReplaceAll(s, pat, rep) == s
    decreases |s|
  {
    if |s| >= |pat| {
      ReplaceAllAbsent(s[1..], pat, rep);
    }
  }

  /** A pattern whose first character does not occur in `s` does not occur in `s`. */
  lemma {:induction false} FirstCharAbsent(s: string, pat: string)
    requires |pat| > 0 && pat[0] !in s
    ensures !Contains(s, pat)
    decreases |s|
  {
    if |s| > 0 {
      assert s[0] in s;
      assert s[1..] == s[1..] && forall k | 0 <= k < |s| - 1 :: s[1..][k] == s[k + 1];
      FirstCharAbsent(s[1..], pat);
    }
  }

  /** A string that is exactly the pattern is replaced whole. */
  lemma ReplaceAllWhole(pat: string, rep: string)
    requires |pat| > 0
    ensures ReplaceAll(pat, pat, rep) == rep
  {
    assert pat[..|pat|] == pat && pat[|pat|..] == [];
    assert rep + [] == rep;
  }

  /** A string that does not start with the pattern and holds the pattern's first
      character nowhere else is left as it is. */
  lemma OnlyAtStart(s: string, pat: string, rep: string)
    requires |pat| > 0 && |s| > 0 && !StartsWith(s, pat) && pat[0] !in s[1..]
    ensures ReplaceAll(s, pat, rep) == s
  {
    FirstCharAbsent(s[1..], pat);
    ReplaceAllAbsent(s[1..], pat, rep);
  }

  /** A prefix in which the pattern's first character does not occur is kept as it
      is; only the rest of the string is rewritten. */
  lemma {:induction false} ReplaceAllKeepsPrefix(stem: string, rest: string, pat: string, rep: string)
    requires |pat| > 0 && pat[0] !in stem
    ensures ReplaceAll(stem + rest, pat, rep) == stem + ReplaceAll(rest, pat, rep)
    decreases |stem|
  {
    if |stem| > 0 {
      var s := stem + rest;
      assert s[0] == stem[0];
      assert s[1..] == stem[1..] + rest;
      assert pat[0] !in stem[1..];
      ReplaceAllKeepsPrefix(stem[1..], rest, pat, rep);
      if |s| < |pat| {
        assert |rest| < |pat|;
        assert ReplaceAll(rest, pat, rep) == rest;
      } else {
        assert s[..|pat|][0] != pat[0];
      }
    } else {
      assert stem + rest == rest;
    }
  }

  /** After every occurrence of a one-character pattern is replaced by text that does
      not contain that character, the character is gone. */
  lemma {:induction false} ReplaceAllCharGone(s: string, c: char, rep: string)
    requires c !in rep
    ensures c !in ReplaceAll(s, [c], rep)
    decreases |s|
  {
    if |s| >= 1 {
      ReplaceAllCharGone(s[1..], c, rep);
    }
  }

  // ---- trim ----------------------------------------------------------------

  function TrimStart(s: string): string
    decreases |s|
  {
    if |s| > 0 && s[0] <= ' ' then TrimStart(s[1..]) else s
  }

  function TrimEnd(s: string): string
    decreases |s|
  {
    if |s| > 0 && s[|s| - 1] <= ' ' then TrimEnd(s[..|s| - 1]) else s
  }

  /** `s.trim()`: drops every leading and trailing character at or below U+0020. */
  function Trim(s: string): string {
    TrimEnd(TrimStart(s))
  }

  /** `s.trim().isEmpty()`. */
  predicate IsBlank(s: string) {
    Trim(s) == ""
  }

  lemma {:induction false} TrimStartEmptyIff(s: string)
    ensures TrimStart(s) == "" <==> forall i | 0 <= i < |s| :: s[i] <= ' '
    decreases |s|
  {
    if |s| > 0 && s[0] <= ' ' {
      TrimStartEmptyIff(s[1..]);
      assert forall i | 1 <= i < |s| :: s[i] == s[1..][i - 1];
    }
  }

  lemma {:induction false} TrimEndEmptyIff(s: string)
    ensures TrimEnd(s) == "" <==> forall i | 0 <= i < |s| :: s[i] <= ' '
    decreases |s|
  {
    if |s| > 0 && s[|s| - 1] <= ' ' {
      TrimEndEmptyIff(s[..|s| - 1]);
    }
  }

  lemma {:induction false} TrimStartKeepsSpaceOnly(s: string)
    requires forall i | 0 <= i < |s| :: s[i] <= ' '
    ensures TrimStart(s) == ""
    decreases |s|
  {
    TrimStartEmptyIff(s);
  }

  /** A string is blank exactly when every character is at or below U+0020. */
  lemma {:induction false} BlankIff(s: string)
    ensures IsBlank(s) <==> forall i | 0 <= i < |s| :: s[i] <= ' '
  {
    TrimStartEmptyIff(s);
    TrimEndEmptyIff(TrimStart(s));
    TrimStartSuffix(s);
    var t := TrimStart(s);
    if IsBlank(s) {
      // t is all blank and every character of s before t is blank as well
      forall i | 0 <= i < |s| ensures s[i] <= ' ' {
        TrimStartPrefixBlank(s, i);
      }
    }
  }

  lemma {:induction false} TrimStartSuffix(s: string)
    ensures |TrimStart(s)| <= |s| && TrimStart(s) == s[|s| - |TrimStart(s)|..]
    decreases |s|
  {
    if |s| > 0 && s[0] <= ' ' {
      TrimStartSuffix(s[1..]);
    }
  }

  lemma {:induction false} TrimStartPrefixBlank(s: string, i: nat)
    requires i < |s| - |TrimStart(s)| || (i < |s| && forall k | 0 <= k < |TrimStart(s)| :: TrimStart(s)[k] <= ' ')
    requires |TrimStart(s)| <= |s| && TrimStart(s) == s[|s| - |TrimStart(s)|..]
    ensures s[i] <= ' '
    decreases |s|
  {
    if |s| > 0 && s[0] <= ' ' {
      if i > 0 {
        TrimStartSuffix(s[1..]);
        TrimStartPrefixBlank(s[1..], i - 1);
      }
    } else {
      assert TrimStart(s) == s;
    }
  }

  lemma {:induction false} TrimStartFirst(s: string)
    ensures TrimStart(s) != "" ==> TrimStart(s)[0] > ' '
    decreases |s|
  {
    if |s| > 0 && s[0] <= ' ' {
      TrimStartFirst(s[1..]);
    }
  }

  lemma {:induction false} TrimEndPrefix(s: string)
    ensures |TrimEnd(s)| <= |s| && TrimEnd(s) == s[..|TrimEnd(s)|]
    ensures TrimEnd(s) != "" ==> TrimEnd(s)[|TrimEnd(s)| - 1] > ' '
    decreases |s|
  {
    if |s| > 0 && s[|s| - 1] <= ' ' {
      TrimEndPrefix(s[..|s| - 1]);
    }
  }

  /** A trimmed string that is not empty starts and ends above U+0020, so it is
      not blank and trimming it again changes nothing. */
  lemma TrimmedIsTrim(s: string)
    ensures Trim(Trim(s)) == Trim(s)
    ensures Trim(s) != "" ==> !IsBlank(Trim(s))
  {
    var t := Trim(s);
    TrimStartFirst(s);
    TrimEndPrefix(TrimStart(s));
    if t != "" {
      assert t[0] == TrimStart(s)[0] > ' ';
      assert TrimStart(t) == t;
      assert TrimEnd(t) == t;
      BlankIff(t);
    }
  }

  // ---- decimal numbers -------------------------------------------------------

  function DigitChar(d: nat): char
    requires d < 10
  {
    (48 + d) as char
  }

  predicate IsDigit(c: char) {
    '0' <= c <= '9'
  }

  predicate AllDigits(s: string) {
    forall i | 0 <= i < |s| :: IsDigit(s[i])
  }

  /** The decimal digits of `n`, without sign or leading zeros. */
  function NatToString(n: nat): string
    decreases n
  {
    if n < 10 then [DigitChar(n)] else NatToString(n / 10) + [DigitChar(n % 10)]
  }

  /** `Integer.toString(n)`, which is also what `"..." + n` produces. */
  function IntToString(n: int): string {
    if n < 0 then "-" + NatToString(-n) else NatToString(n)
  }

  /** The value of a string of decimal digits, read left to right. */
  function DigitsValue(s: string): nat
    requires AllDigits(s)
    decreases |s|
  {
    if s == [] then 0 else DigitsValue(s[..|s| - 1]) * 10 + (s[|s| - 1] as int - 48)
  }

  /** `Integer.parseInt(s)`: an optional sign and at least one ASCII digit, in range;
      `None` where Java throws NumberFormatException. */
  function ParseInt(s: string): Option<Int32> {
    if |s| == 0 then None
    else
      var digits := if s[0] == '-' || s[0] == '+' then s[1..] else s;
      if |digits| == 0 || !AllDigits(digits) then None
      else
        var v: int := if s[0] == '-' then -(DigitsValue(digits) as int) else DigitsValue(digits);
        if MinInt32 <= v <= MaxInt32 then Some(v) else None
  }

  lemma {:induction false} NatToStringDigits(n: nat)
    ensures |NatToString(n)| > 0 && AllDigits(NatToString(n))
    ensures DigitsValue(NatToString(n)) == n
    decreases n
  {
    if n >= 10 {
      NatToStringDigits(n / 10);
      var s := NatToString(n);
      assert s[..|s| - 1] == NatToString(n / 10);
    }
  }

  /** A string of digits within range parses to its value. */
  lemma ParseIntDigits(s: string)
    requires |s| > 0 && AllDigits(s) && DigitsValue(s) <= MaxInt32
    ensures ParseInt(s) == Some(DigitsValue(s))
  {
    assert IsDigit(s[0]);
  }

  /** A minus sign before a string of digits within range parses to the negated value. */
  lemma ParseIntNegated(s: string)
    requires |s| > 0 && AllDigits(s) && DigitsValue(s) <= -MinInt32
    ensures ParseInt("-" + s) == Some(-(DigitsValue(s) as int))
  {
    assert ("-" + s)[1..] == s;
  }

  /** Printing an `int` and parsing it back gives the same `int`. */
  lemma ParseIntToString(n: Int32)
    ensures ParseInt(IntToString(n)) == Some(n)
  {
    if n < 0 {
      NatToStringDigits(-(n as int));
      ParseIntNegated(NatToString(-(n as int)));
    } else {
      NatToStringDigits(n);
      ParseIntDigits(NatToString(n));
    }
  }

  /** Left-pads `s` with '0' up to `width` characters. */
  function ZeroPad(s: string, width: nat): string
    decreases width - |s|
  {
    if |s| < width then ZeroPad("0" + s, width) else s
  }

  /** `String.format("%03d", n)`: at least three characters, zero-padded after the sign. */
  function Pad3(n: int): string {
    if n < 0 then "-" + ZeroPad(NatToString(-n), 2) else ZeroPad(NatToString(n), 3)
  }

  lemma {:induction false} LeadingZero(s: string)
    requires AllDigits(s)
    ensures AllDigits("0" + s) && DigitsValue("0" + s) == DigitsValue(s)
    decreases |s|
  {
    if s != [] {
      var t := "0" + s;
      assert t[..|t| - 1] == "0" + s[..|s| - 1];
      LeadingZero(s[..|s| - 1]);
    }
  }

  lemma {:induction false} ZeroPadDigits(s: string, width: nat)
    requires AllDigits(s)
    ensures AllDigits(ZeroPad(s, width)) && DigitsValue(ZeroPad(s, width)) == DigitsValue(s)
    ensures |ZeroPad(s, width)| >= width && |ZeroPad(s, width)| >= |s|
    decreases width - |s|
  {
    if |s| < width {
      LeadingZero(s);
      ZeroPadDigits("0" + s, width);
    }
  }

  /** A padded counter reads back as the counter: distinct counter values give distinct
      file-name parts, and the part is never shorter than three characters. */
  lemma ParsePad3(n: Int32)
    ensures ParseInt(Pad3(n)) == Some(n) && |Pad3(n)| >= 3
  {
    if n < 0 {
      NatToStringDigits(-(n as int));
      ZeroPadDigits(NatToString(-(n as int)), 2);
      ParseIntNegated(ZeroPad(NatToString(-(n as int)), 2));
    } else {
      NatToStringDigits(n);
      ZeroPadDigits(NatToString(n), 3);
      ParseIntDigits(ZeroPad(NatToString(n), 3));
    }
  }

  // ---- searching -------------------------------------------------------------

  /** `s.lastIndexOf(c)`: the last position holding `c`, or -1. */
  function LastIndexOf(s: string, c: char): (k: int)
    ensures -1 <= k < |s|
    ensures k >= 0 ==> s[k] == c
    ensures forall j | k < j < |s| :: s[j] != c
    decreases |s|
  {
    if |s| == 0 then -1
    else if s[|s| - 1] == c then |s| - 1
    else LastIndexOf(s[..|s| - 1], c)
  }
}
