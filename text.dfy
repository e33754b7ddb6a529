/**
 * The few pieces of Python string behaviour the core relies on, restricted to ASCII:
 * `str.isdigit`, `int(...)` of a decimal string (underscores between digits allowed),
 * `str(n)` of a natural number, `str.lower`, `str.strip`/`rstrip` and `str.startswith`.
 */
module Text {
  import opened Wrappers

  predicate IsDigit(c: char) {
    '0' <= c <= '9'
  }

  /** `s.isdigit()`: non-empty and every character a decimal digit. */
  predicate IsDigits(s: string) {
    |s| > 0 && forall i :: 0 <= i < |s| ==> IsDigit(s[i])
  }

  function DigitValue(c: char): (d: nat)
    requires IsDigit(c)
    ensures d < 10
  {
    (c as int - '0' as int)
  }

  function DigitChar(d: nat): (c: char)
    requires d < 10
    ensures IsDigit(c) && DigitValue(c) == d
  {
    (d + '0' as int) as char
  }

  /** The value of a run of decimal digits, most significant first (leading zeros allowed). */
  function DigitsValue(s: string): nat
    requires forall i :: 0 <= i < |s| ==> IsDigit(s[i])
  {
    if |s| == 0 then 0 else DigitsValue(s[..|s| - 1]) * 10 + DigitValue(s[|s| - 1])
  }

  /** `str(n)` for a natural number: decimal, no leading zeros. */
  function NatToString(n: nat): (s: string)
    ensures IsDigits(s)
    ensures |s| > 1 ==> s[0] != '0'
  {
    if n < 10 then [DigitChar(n)] else NatToString(n / 10) + [DigitChar(n % 10)]
  }

  /** `int(str(n)) == n`: the decimal rendering of a natural number reads back as that number. */
  lemma {:induction false} NatToStringRoundTrip(n: nat)
    ensures DigitsValue(NatToString(n)) == n
  {
    if n >= 10 {
      var s := NatToString(n);
      assert s[..|s| - 1] == NatToString(n / 10);
      NatToStringRoundTrip(n / 10);
    }
  }

  /** Two different numbers never render to the same string. */
  lemma NatToStringInjective(m: nat, n: nat)
    ensures NatToString(m) == NatToString(n) ==> m == n
  {
    if NatToString(m) == NatToString(n) {
      NatToStringRoundTrip(m);
      NatToStringRoundTrip(n);
    }
  }

  function LowerChar(c: char): (r: char)
    ensures !('A' <= r <= 'Z')
  {
    if 'A' <= c <= 'Z' then (c as int + 32) as char else c
  }

  /** `s.lower()` on ASCII letters. */
  function Lower(s: string): (r: string)
    ensures |r| == |s|
    ensures forall i :: 0 <= i < |s| ==> r[i] == LowerChar(s[i])
  {
    if |s| == 0 then [] else [LowerChar(s[0])] + Lower(s[1..])
  }

  /** The rule every DRF `CharField` adds: text holding the character U+0000 is refused. */
  predicate HasNullCharacter(s: string) {
    '\0' in s
  }

  const NullCharactersMessage: string := "Null characters are not allowed."

  /** The ASCII characters for which Python's `str.isspace()` holds. */
  predicate IsSpace(c: char) {
    c == ' ' || c == '\t' || c == '\n' || c == '\r' || c == '\U{B}' || c == '\U{C}'
    || ('\U{1C}' <= c <= '\U{1F}')
  }

  predicate AllSpace(s: string) {
    forall i :: 0 <= i < |s| ==> IsSpace(s[i])
  }

  /** `s.rstrip()`: the longest prefix of `s` that does not end in whitespace. */
  function RStrip(s: string): (r: string)
    ensures |r| <= |s| && r == s[..|r|]
    ensures AllSpace(s[|r|..])
    ensures |r| > 0 ==> !IsSpace(r[|r| - 1])
  {
    if |s| > 0 && IsSpace(s[|s| - 1]) then RStrip(s[..|s| - 1]) else s
  }

  /** `s.strip()`: leading whitespace dropped, then trailing whitespace. */
  function Strip(s: string): (r: string)
    ensures |r| <= |s|
    ensures |r| > 0 ==> !IsSpace(r[0]) && !IsSpace(r[|r| - 1])
  {
    if |s| > 0 && IsSpace(s[0]) then Strip(s[1..]) else RStrip(s)
  }

  /** `s.strip() == ""` holds exactly when every character of `s` is whitespace. */
  lemma {:induction false} StripEmptyIffAllSpace(s: string)
    ensures Strip(s) == "" <==> AllSpace(s)
  {
    if |s| > 0 && IsSpace(s[0]) {
      StripEmptyIffAllSpace(s[1..]);
      assert AllSpace(s) <==> AllSpace(s[1..]) by {
        if AllSpace(s[1..]) {
          forall i | 0 < i < |s| ensures IsSpace(s[i]) { assert s[i] == s[1..][i - 1]; }
        }
      }
    }
  }

  /** A string without whitespace at either end strips to itself. */
  lemma StripOfStripped(s: string)
    requires |s| > 0 ==> !IsSpace(s[0]) && !IsSpace(s[|s| - 1])
    ensures Strip(s) == s
  {
  }

  lemma {:induction false} RStripOfAllSpace(s: string)
    ensures AllSpace(s) ==> RStrip(s) == ""
  {
    if |s| > 0 && AllSpace(s) {
      assert AllSpace(s[..|s| - 1]);
      RStripOfAllSpace(s[..|s| - 1]);
    }
  }

  predicate StartsWith(s: string, prefix: string) {
    |prefix| <= |s| && s[..|prefix|] == prefix
  }

  /**
   * The digit part of a Python integer literal: decimal digits, with single underscores
   * allowed between two digits (`1_000`).
   */
  predicate IsUnderscoredDigits(s: string) {
    && |s| > 0 && IsDigit(s[0]) && IsDigit(s[|s| - 1])
    && (forall i :: 0 <= i < |s| ==> IsDigit(s[i]) || s[i] == '_')
    && (forall i :: 0 <= i < |s| - 1 && s[i] == '_' ==> IsDigit(s[i + 1]))
  }

  /** The digits of `s` with the underscores left out, in their order. */
  function DropUnderscores(s: string): (r: string)
    ensures |r| <= |s|
    ensures (forall i :: 0 <= i < |s| ==> IsDigit(s[i]) || s[i] == '_') ==> forall i :: 0 <= i < |r| ==> IsDigit(r[i])
    ensures (forall i :: 0 <= i < |s| ==> IsDigit(s[i])) ==> r == s
  {
    if |s| == 0 then ""
    else
      var rest := DropUnderscores(s[..|s| - 1]);
      if s[|s| - 1] == '_' then rest else rest + [s[|s| - 1]]
  }

  /**
   * Python's `int(s)` for a string: surrounding whitespace, an optional sign and the digits
   * of an integer literal; anything else raises ValueError (here: None).
   */
  function ParseInt(s: string): (r: Option<int>)
    ensures r.Some? ==> Strip(s) != ""
    ensures r.Some? <==> IsUnderscoredDigits(Strip(s))
                         || (|Strip(s)| > 0 && (Strip(s)[0] == '+' || Strip(s)[0] == '-') && IsUnderscoredDigits(Strip(s)[1..]))
    ensures r.Some? && IsUnderscoredDigits(Strip(s)) ==> r.value == DigitsValue(DropUnderscores(Strip(s)))
    ensures r.Some? && Strip(s)[0] == '+' ==> r.value == DigitsValue(DropUnderscores(Strip(s)[1..]))
    ensures r.Some? && Strip(s)[0] == '-' ==> r.value == -(DigitsValue(DropUnderscores(Strip(s)[1..])) as int)
  {
    var t := Strip(s);
    if |t| > 0 && (t[0] == '+' || t[0] == '-') then
      var digits := t[1..];
      if IsUnderscoredDigits(digits) then
        var v := DigitsValue(DropUnderscores(digits));
        Some(if t[0] == '-' then -(v as int) else v)
      else None
    else if IsUnderscoredDigits(t) then Some(DigitsValue(DropUnderscores(t)))
    else None
  }

  /** What `int(str(n))` gives back for every natural number. */
  lemma ParseIntOfNat(n: nat)
    ensures ParseInt(NatToString(n)) == Some(n)
  {
    var s := NatToString(n);
    assert Strip(s) == s by {
      assert !IsSpace(s[|s| - 1]);
      assert !IsSpace(s[0]);
    }
    NatToStringRoundTrip(n);
  }

  lemma {:induction false} DropUnderscoresAppend(a: string, b: string)
    ensures DropUnderscores(a + b) == DropUnderscores(a) + DropUnderscores(b)
    decreases |b|
  {
    if |b| == 0 {
      assert a + b == a;
    } else {
      var b' := b[..|b| - 1];
      assert (a + b)[..|a + b| - 1] == a + b';
      DropUnderscoresAppend(a, b');
    }
  }

  /** A string that starts and ends with a digit strips to itself and carries no sign. */
  lemma DigitEndsStrip(t: string)
    requires |t| > 0 && IsDigit(t[0]) && IsDigit(t[|t| - 1])
    ensures Strip(t) == t && t[0] != '+' && t[0] != '-'
  {
    StripOfStripped(t);
  }

  /** An unsigned literal reads as the value of its digits. */
  lemma ParseIntOfLiteral(t: string)
    requires IsUnderscoredDigits(t)
    ensures ParseInt(t) == Some(DigitsValue(DropUnderscores(t)))
  {
    DigitEndsStrip(t);
  }

  /** `int(...)` ignores a single underscore between two runs of digits: `int("1_000") == int("1000")`. */
  lemma UnderscoreBetweenDigitsIgnored(x: string, y: string)
    requires IsDigits(x) && IsDigits(y)
    ensures ParseInt(x + "_" + y) == ParseInt(x + y) == Some(DigitsValue(x + y))
  {
    var t := x + "_" + y;
    assert IsUnderscoredDigits(t) by {
      forall i | 0 <= i < |t| - 1 && t[i] == '_' ensures IsDigit(t[i + 1]) {
        assert i == |x|;
      }
    }
    assert IsUnderscoredDigits(x + y);
    DropUnderscoresAppend(x + "_", y);
    DropUnderscoresAppend(x, "_");
    assert DropUnderscores("_") == "";
    assert DropUnderscores(t) == x + y;
    assert DropUnderscores(x + y) == x + y;
    ParseIntOfLiteral(t);
    ParseIntOfLiteral(x + y);
  }

  /** Two underscores in a row are refused: `int("1__000")` raises ValueError. */
  lemma DoubledUnderscoreRefused(x: string, y: string)
    requires IsDigits(x) && IsDigits(y)
    ensures ParseInt(x + "__" + y).None?
  {
    var t := x + "__" + y;
    DigitEndsStrip(t);
    assert t[|x|] == '_' && t[|x| + 1] == '_';
  }
}
