/**
 * The Python string built-ins the interpreter core relies on: `in`,
 * `str.replace`, `str.split`, `str.join`, `int(str)`, `float(str)`,
 * `str(int)` and the ordering of strings. Each is stated over `seq<char>`.
 */
module Text {

  /** True iff `s` begins with `pat`. */
  predicate StartsWith(s: string, pat: string) {
    |pat| <= |s| && s[..|pat|] == pat
  }

  /** Python's `pat in s` for a pattern of any length (the empty pattern is in every string). */
  predicate Contains(s: string, pat: string)
    decreases |s|
  {
    StartsWith(s, pat) || (|s| > 0 && Contains(s[1..], pat))
  }

  /** Python's `s.replace(pat, rep)`: every non-overlapping occurrence, scanning left to right. */
  function Replace(s: string, pat: string, rep: string): string
    requires |pat| > 0
    decreases |s|
  {
    if |s| < |pat| then s
    else if s[..|pat|] == pat then rep + Replace(s[|pat|..], pat, rep)
    else [s[0]] + Replace(s[1..], pat, rep)
  }

  /** Python's `s.split(sep)` for a one-character separator: never empty, and `"".split(sep) == [""]`. */
  function Split(s: string, sep: char): seq<string>
    decreases |s|
  {
    if s == [] then [""]
    else
      var rest := Split(s[1..], sep);
      if s[0] == sep then [""] + rest
      else [[s[0]] + rest[0]] + rest[1..]
  }

  /** Python's `sep.join(parts)` for a one-character separator. */
  function Join(sep: char, parts: seq<string>): string
    decreases |parts|
  {
    if |parts| == 0 then ""
    else if |parts| == 1 then parts[0]
    else parts[0] + [sep] + Join(sep, parts[1..])
  }

  /** The ASCII whitespace that `int()` and `float()` strip from both ends of their argument. */
  predicate IsSpace(c: char) {
    c == ' ' || c == '\t' || c == '\n' || c == '\r' || c == '\U{000B}' || c == '\U{000C}'
  }

  /** Python's `s.strip()` restricted to ASCII whitespace. */
  function Strip(s: string): string
    decreases |s|
  {
    if |s| > 0 && IsSpace(s[0]) then Strip(s[1..])
    else if |s| > 0 && IsSpace(s[|s| - 1]) then Strip(s[..|s| - 1])
    else s
  }

  predicate IsDigit(c: char) {
    '0' <= c <= '9'
  }

  predicate AllDigits(s: string) {
    forall i :: 0 <= i < |s| ==> IsDigit(s[i])
  }

  function DigitValue(c: char): nat
    requires IsDigit(c)
  {
    (c as int - '0' as int) as nat
  }

  /** The value of a run of decimal digits, most significant first. */
  function DigitsValue(s: string): nat
    requires AllDigits(s)
    decreases |s|
  {
    if s == [] then 0 else DigitsValue(s[..|s| - 1]) * 10 + DigitValue(s[|s| - 1])
  }

  function Pow10(n: nat): (r: nat)
    ensures r >= 1
  {
    if n == 0 then 1 else 10 * Pow10(n - 1)
  }

  /**
   * Python's `int(s)` on text: surrounding whitespace, an optional sign and
   * one or more ASCII digits; `None` where Python raises ValueError.
   */
  function ParseInt(s: string): Option<int> {
    var t := Strip(s);
    if |t| > 1 && (t[0] == '+' || t[0] == '-') && AllDigits(t[1..]) then
      Some(if t[0] == '-' then -(DigitsValue(t[1..]) as int) else DigitsValue(t[1..]) as int)
    else if |t| > 0 && AllDigits(t) then Some(DigitsValue(t) as int)
    else None
  }

  /** The unsigned part of a decimal float literal: digits, optionally one '.', at least one digit. */
  function UnsignedDecimal(body: string): Option<real> {
    var parts := Split(body, '.');
    if |parts| == 1 && |body| > 0 && AllDigits(body) then Some(DigitsValue(body) as real)
    else if |parts| == 2 && |parts[0]| + |parts[1]| > 0 && AllDigits(parts[0]) && AllDigits(parts[1]) then
      Some(DigitsValue(parts[0]) as real + DigitsValue(parts[1]) as real / Pow10(|parts[1]|) as real)
    else None
  }

  /**
   * Python's `float(s)` on text, for plain decimal literals (`"1.5"`, `"-.5"`,
   * `"2."`, `"7"`), as an exact rational; `None` where the literal is not of
   * that form.
   */
  function ParseFloat(s: string): Option<real> {
    var t := Strip(s);
    if |t| > 0 && (t[0] == '+' || t[0] == '-') then
      match UnsignedDecimal(t[1..])
      case Some(x) => Some(if t[0] == '-' then -x else x)
      case None => None
    else UnsignedDecimal(t)
  }

  /** The decimal digits of `n`, most significant first, without leading zeros. */
  function NatToString(n: nat): string
    decreases n
  {
    if n < 10 then [('0' as int + n) as char]
    else NatToString(n / 10) + [('0' as int + n % 10) as char]
  }

  /** Python's `str(i)` for an int. */
  function IntToString(i: int): string {
    if i < 0 then "-" + NatToString(-i) else NatToString(i)
  }

  /** Python's `a < b` on two strings: lexicographic by code point. */
  predicate LexLess(a: string, b: string)
    decreases |a|
  {
    if a == [] then b != []
    else if b == [] then false
    else if a[0] != b[0] then a[0] < b[0]
    else LexLess(a[1..], b[1..])
  }

  datatype Option<+T> = None | Some(value: T)

  // ---------------------------------------------------------------------
  // Lemmas
  // ---------------------------------------------------------------------

  /** Splitting and re-joining on the same separator gives back the text. */
  lemma {:induction false} JoinSplit(s: string, sep: char)
    ensures Join(sep, Split(s, sep)) == s
    decreases |s|
  {
    if s != [] {
      var rest := Split(s[1..], sep);
      JoinSplit(s[1..], sep);
      SplitNonEmpty(s[1..], sep);
      if s[0] == sep {
        assert Split(s, sep) == [""] + rest;
        JoinCons(sep, "", rest);
        assert s == [s[0]] + s[1..];
      } else {
        var parts := [[s[0]] + rest[0]] + rest[1..];
        if |rest| == 1 {
          assert Join(sep, rest) == rest[0];
        } else {
          JoinCons(sep, rest[0], rest[1..]);
          assert rest == [rest[0]] + rest[1..];
          JoinCons(sep, [s[0]] + rest[0], rest[1..]);
        }
        assert s == [s[0]] + s[1..];
      }
    }
  }

  lemma SplitNonEmpty(s: string, sep: char)
    ensures |Split(s, sep)| >= 1
  {
  }

  /** Joining a head piece onto a non-empty rest puts exactly one separator between them. */
  lemma JoinCons(sep: char, a: string, rest: seq<string>)
    requires |rest| >= 1
    ensures Join(sep, [a] + rest) == a + [sep] + Join(sep, rest)
  {
    assert ([a] + rest)[1..] == rest;
  }

  /** No piece of a split contains the separator. */
  lemma {:induction false} SplitPiecesFree(s: string, sep: char)
    ensures forall k :: 0 <= k < |Split(s, sep)| ==> sep !in Split(s, sep)[k]
    decreases |s|
  {
    if s != [] {
      SplitPiecesFree(s[1..], sep);
    }
  }

  /** A text without the separator splits into itself alone. */
  lemma {:induction false} SplitWithoutSep(s: string, sep: char)
    requires sep !in s
    ensures Split(s, sep) == [s]
    decreases |s|
  {
    if s != [] {
      assert sep !in s[1..];
      SplitWithoutSep(s[1..], sep);
      assert [s[0]] + s[1..] == s;
    }
  }

  /** A text that contains the separator splits into at least two pieces. */
  lemma {:induction false} SplitWithSep(s: string, sep: char)
    requires sep in s
    ensures |Split(s, sep)| >= 2
    decreases |s|
  {
    if s[0] != sep {
      assert sep in s[1..];
      SplitWithSep(s[1..], sep);
    } else {
      SplitNonEmpty(s[1..], sep);
    }
  }

  /**
   * The first piece and the re-joined remaining pieces of a split that found
   * the separator are, together, one character shorter than the text.
   */
  lemma HeadAndTailLength(s: string, sep: char)
    requires |Split(s, sep)| >= 2
    ensures |Split(s, sep)[0]| + |Join(sep, Split(s, sep)[1..])| + 1 == |s|
  {
    var parts := Split(s, sep);
    JoinSplit(s, sep);
    JoinCons(sep, parts[0], parts[1..]);
    assert [parts[0]] + parts[1..] == parts;
  }

  /** Every piece of a split is no longer than the text, and shorter when the separator occurs. */
  lemma {:induction false} SplitPieceLength(s: string, sep: char, k: nat)
    requires k < |Split(s, sep)|
    ensures |Split(s, sep)[k]| <= |s|
    ensures sep in s ==> |Split(s, sep)[k]| < |s|
    decreases |s|
  {
    if s != [] {
      var rest := Split(s[1..], sep);
      if s[0] == sep {
        if k > 0 {
          SplitPieceLength(s[1..], sep, k - 1);
        }
      } else {
        SplitPieceLength(s[1..], sep, if k == 0 then 0 else k);
        assert sep in s ==> sep in s[1..];
      }
    }
  }

  /** Replacing a pattern by text no longer than it never lengthens the text. */
  lemma {:induction false} ReplaceLength(s: string, pat: string, rep: string)
    requires |pat| > 0 && |rep| <= |pat|
    ensures |Replace(s, pat, rep)| <= |s|
    decreases |s|
  {
    if |s| >= |pat| {
      if s[..|pat|] == pat {
        ReplaceLength(s[|pat|..], pat, rep);
      } else {
        ReplaceLength(s[1..], pat, rep);
      }
    }
  }

  /** Where the pattern occurs, the replacement text occurs in the result. */
  lemma {:induction false} ReplaceIntroduces(s: string, pat: string, c: char)
    requires |pat| > 0 && Contains(s, pat)
    ensures c in Replace(s, pat, [c])
    decreases |s|
  {
    if |s| < |pat| {
      assert !StartsWith(s, pat);
      ReplaceIntroducesShort(s, pat);
    } else if s[..|pat|] == pat {
    } else {
      assert !StartsWith(s, pat);
      ReplaceIntroduces(s[1..], pat, c);
    }
  }

  lemma {:induction false} ReplaceIntroducesShort(s: string, pat: string)
    requires |s| < |pat|
    ensures !Contains(s, pat)
    decreases |s|
  {
    if |s| > 0 {
      ReplaceIntroducesShort(s[1..], pat);
    }
  }

  /** Text made of digits has nothing for `strip()` to remove. */
  lemma StripNoSpace(s: string)
    requires |s| == 0 || (!IsSpace(s[0]) && !IsSpace(s[|s| - 1]))
    ensures Strip(s) == s
  {
  }

  lemma {:induction false} NatToStringDigits(n: nat)
    ensures |NatToString(n)| >= 1 && AllDigits(NatToString(n))
    ensures DigitsValue(NatToString(n)) == n
    decreases n
  {
    if n >= 10 {
      NatToStringDigits(n / 10);
      var s := NatToString(n);
      assert s[..|s| - 1] == NatToString(n / 10);
    }
  }

  /** No text is less than itself. */
  lemma {:induction false} LexLessIrreflexive(s: string)
    ensures !LexLess(s, s)
    decreases |s|
  {
    if s != [] {
      LexLessIrreflexive(s[1..]);
    }
  }

  /** `int(str(i)) == i`: rendering an int and parsing the text gives it back. */
  lemma IntRoundTrip(i: int)
    ensures ParseInt(IntToString(i)) == Some(i)
  {
    var n: nat := if i < 0 then -i else i;
    NatToStringDigits(n);
    var d := NatToString(n);
    var s := IntToString(i);
    assert !IsSpace(d[0]) && !IsSpace(d[|d| - 1]);
    StripNoSpace(s);
    if i < 0 {
      assert s[1..] == d;
    }
  }
}
