/** String helpers used by the core: Go's `strings.ToLower` as far as it can
    produce ASCII text (every literal the core compares a lowered string with
    is ASCII), and the decimal rendering that `fmt.Sprintf("%d", n)` produces. */
module Text {

  /** U+0130, LATIN CAPITAL LETTER I WITH DOT ABOVE: Unicode lowers it to 'i'. */
  const DottedCapitalI: char := '\U{0130}'

  /** U+212A, KELVIN SIGN: Unicode lowers it to 'k'. */
  const KelvinSign: char := '\U{212A}'

  /** `unicode.ToLower` on one character, for every character whose
      lower-case form is ASCII: the letters 'A'..'Z' and the two non-ASCII
      capitals above. Every other character is kept; Go would lower some of
      them, but always to a non-ASCII character. */
  function LowerChar(c: char): char {
    if 'A' <= c <= 'Z' then (c as int + 32) as char
    else if c == DottedCapitalI then 'i'
    else if c == KelvinSign then 'k'
    else c
  }

  /** ASCII upper-casing of one character. */
  function UpperChar(c: char): char {
    if 'a' <= c <= 'z' then (c as int - 32) as char else c
  }

  /** `strings.ToLower`: every character is lowered in place. */
  function Lower(s: string): (r: string)
    ensures |r| == |s|
    ensures forall i :: 0 <= i < |s| ==> r[i] == LowerChar(s[i])
  {
    if s == [] then [] else [LowerChar(s[0])] + Lower(s[1..])
  }

  /** `strings.ToUpper` on ASCII letters. */
  function Upper(s: string): (r: string)
    ensures |r| == |s|
    ensures forall i :: 0 <= i < |s| ==> r[i] == UpperChar(s[i])
  {
    if s == [] then [] else [UpperChar(s[0])] + Upper(s[1..])
  }

  /** Two characters that are the same letter in different case: an ASCII
      capital and its small letter 32 code points above, or two members of
      the i-family (I, i, U+0130) or of the k-family (K, k, U+212A). */
  predicate SameLetter(a: char, b: char) {
    || a == b
    || ('A' <= a <= 'Z' && b as int == a as int + 32)
    || ('A' <= b <= 'Z' && a as int == b as int + 32)
    || ((a == 'I' || a == 'i' || a == DottedCapitalI) && (b == 'I' || b == 'i' || b == DottedCapitalI))
    || ((a == 'K' || a == 'k' || a == KelvinSign) && (b == 'K' || b == 'k' || b == KelvinSign))
  }

  /** Two strings that differ only in the case of their letters. */
  predicate EqualFold(s: string, t: string) {
    |s| == |t| && forall i :: 0 <= i < |s| ==> SameLetter(s[i], t[i])
  }

  /** Two characters lower to the same character exactly when they are the
      same letter up to case. */
  lemma SameLowerCharIffSameLetter(a: char, b: char)
    ensures LowerChar(a) == LowerChar(b) <==> SameLetter(a, b)
  {
  }

  /** Comparing lower-cased strings is exactly comparing up to case. */
  lemma SameLowerIffEqualFold(s: string, t: string)
    ensures Lower(s) == Lower(t) <==> EqualFold(s, t)
  {
    if EqualFold(s, t) {
      forall i | 0 <= i < |s|
        ensures Lower(s)[i] == Lower(t)[i]
      {
        SameLowerCharIffSameLetter(s[i], t[i]);
      }
    }
    if Lower(s) == Lower(t) {
      forall i | 0 <= i < |s|
        ensures SameLetter(s[i], t[i])
      {
        assert LowerChar(s[i]) == Lower(s)[i] == Lower(t)[i] == LowerChar(t[i]);
        SameLowerCharIffSameLetter(s[i], t[i]);
      }
    }
  }

  /** Upper-casing a string keeps it equal to the original up to case. */
  lemma UpperEqualFold(s: string)
    ensures EqualFold(Upper(s), s)
  {
    forall i | 0 <= i < |s|
      ensures SameLetter(Upper(s)[i], s[i])
    {
      var c := s[i];
      if 'a' <= c <= 'z' {
        assert UpperChar(c) as int == c as int - 32;
      }
    }
  }

  /** A string without capitals is its own lower-casing. */
  lemma LowerOfLowercase(s: string)
    requires forall i :: 0 <= i < |s| ==> !('A' <= s[i] <= 'Z') && s[i] != DottedCapitalI && s[i] != KelvinSign
    ensures Lower(s) == s
  {
  }

  predicate IsDigit(c: char) {
    '0' <= c <= '9'
  }

  function DigitChar(d: int): (c: char)
    requires 0 <= d < 10
    ensures IsDigit(c) && c as int - '0' as int == d
  {
    ('0' as int + d) as char
  }

  /** The decimal digits of a natural number, most significant first, as `%d` writes them. */
  function Digits(n: nat): (s: string)
    ensures |s| > 0
    ensures forall i :: 0 <= i < |s| ==> IsDigit(s[i])
    ensures |s| > 1 ==> s[0] != '0'
    decreases n
  {
    if n < 10 then [DigitChar(n)] else Digits(n / 10) + [DigitChar(n % 10)]
  }

  /** Go's `%d` rendering of an integer: a minus sign for negatives, then the digits. */
  function Decimal(n: int): (s: string)
    ensures |s| > 0
  {
    if n < 0 then "-" + Digits(-n) else Digits(n)
  }

  predicate AllDigits(s: string) {
    forall i :: 0 <= i < |s| ==> IsDigit(s[i])
  }

  /** Reads a string of decimal digits back as a number. */
  function ParseDigits(s: string): nat
    requires AllDigits(s)
  {
    if s == [] then 0 else ParseDigits(s[..|s| - 1]) * 10 + (s[|s| - 1] as int - '0' as int)
  }

  /** Reads an optionally signed decimal back as an integer. */
  function ParseDecimal(s: string): int {
    if |s| > 0 && s[0] == '-' && AllDigits(s[1..]) then -(ParseDigits(s[1..]) as int)
    else if AllDigits(s) then ParseDigits(s)
    else 0
  }

  lemma {:induction false} DigitsRoundTrip(n: nat)
    ensures ParseDigits(Digits(n)) == n
    decreases n
  {
    if n >= 10 {
      var s := Digits(n);
      assert s[..|s| - 1] == Digits(n / 10);
      DigitsRoundTrip(n / 10);
    }
  }

  /** Rendering with `%d` loses nothing: the number can be read back. */
  lemma DecimalRoundTrip(n: int)
    ensures ParseDecimal(Decimal(n)) == n
  {
    if n < 0 {
      var s := Decimal(n);
      assert s[1..] == Digits(-n);
      DigitsRoundTrip(-n);
    } else {
      DigitsRoundTrip(n);
    }
  }

  /** Distinct integers render to distinct strings. */
  lemma DecimalInjective(a: int, b: int)
    requires Decimal(a) == Decimal(b)
    ensures a == b
  {
    DecimalRoundTrip(a);
    DecimalRoundTrip(b);
  }
}
