/** Character and number formatting used to build a workout's description:
    the upper-casing of the first letter of the type name and the decimal
    rendering of the day of the month inside a template literal. */
module Text {
  import opened Wrappers

  predicate IsDigit(c: char) {
    '0' <= c <= '9'
  }

  predicate AllDigits(s: string) {
    forall i :: 0 <= i < |s| ==> IsDigit(s[i])
  }

  function DigitChar(d: nat): (c: char)
    requires d < 10
    ensures IsDigit(c)
    ensures c as int - '0' as int == d
  {
    ('0' as int + d) as char
  }

  function DigitValue(c: char): (d: nat)
    requires IsDigit(c)
    ensures d < 10 && DigitChar(d) == c
  {
    c as int - '0' as int
  }

  /** `${n}` for a non-negative integer: its decimal digits, most
      significant first, with no leading zero. */
  function NatToString(n: nat): (s: string)
    ensures |s| > 0 && AllDigits(s)
    ensures s[0] == '0' ==> n == 0
    decreases n
  {
    if n < 10 then [DigitChar(n)]
    else NatToString(n / 10) + [DigitChar(n % 10)]
  }

  /** The value of a string of decimal digits (the empty string reads 0). */
  function DigitsValue(s: string): nat
    requires AllDigits(s)
    decreases |s|
  {
    if |s| == 0 then 0
    else DigitsValue(s[..|s| - 1]) * 10 + DigitValue(s[|s| - 1])
  }

  /** A non-empty string of decimal digits without a leading zero (the
      single digit "0" aside): the shape `${n}` gives a number. */
  predicate IsCanonicalNumeral(s: string) {
    |s| > 0 && AllDigits(s) && (|s| == 1 || s[0] != '0')
  }

  /** Reads a decimal numeral back as a number; padded numerals such as
      "05" are refused, since `${n}` never writes them. */
  function ParseNat(s: string): (r: Option<nat>)
    ensures r.Some? <==> IsCanonicalNumeral(s)
  {
    if IsCanonicalNumeral(s) then Some(DigitsValue(s)) else None
  }

  /** The decimal rendering of a number reads back as that number. */
  lemma {:induction false} ParseNatToString(n: nat)
    ensures ParseNat(NatToString(n)) == Some(n)
    decreases n
  {
    var s := NatToString(n);
    if n >= 10 {
      ParseNatToString(n / 10);
      assert s[..|s| - 1] == NatToString(n / 10);
      assert DigitValue(s[|s| - 1]) == n % 10;
      assert DigitsValue(s) == (n / 10) * 10 + n % 10;
    }
  }

  /** A numeral whose first digit is not zero has a positive value. */
  lemma {:induction false} DigitsValuePositive(s: string)
    requires |s| > 0 && AllDigits(s) && s[0] != '0'
    ensures DigitsValue(s) > 0
    decreases |s|
  {
    if |s| > 1 {
      DigitsValuePositive(s[..|s| - 1]);
    }
  }

  /** Only the rendering of a number reads back as that number: a numeral
      that parses is exactly the decimal text of its value. */
  lemma {:induction false} ParseNatCanonical(s: string)
    requires ParseNat(s).Some?
    ensures NatToString(ParseNat(s).value) == s
    decreases |s|
  {
    var n := DigitsValue(s);
    if |s| > 1 {
      var init := s[..|s| - 1];
      assert init[0] == s[0];
      DigitsValuePositive(init);
      ParseNatCanonical(init);
      assert n / 10 == DigitsValue(init) && n % 10 == DigitValue(s[|s| - 1]);
      assert NatToString(n) == init + [DigitChar(n % 10)];
      assert DigitChar(n % 10) == s[|s| - 1];
      assert s == init + [s[|s| - 1]];
    } else {
      assert s[..|s| - 1] == [] && DigitsValue(s[..|s| - 1]) == 0;
      assert n == DigitValue(s[0]) && n < 10;
      assert NatToString(n) == [DigitChar(n)];
      assert DigitChar(n) == s[0];
    }
  }

  /** `String.prototype.toUpperCase` on one character, for the ASCII
      letters the type names are made of. */
  function UpperCase(c: char): char {
    if 'a' <= c <= 'z' then (c as int - 32) as char else c
  }

  /** `s[0].toUpperCase() + s.slice(1)`; `s[0]` must exist, so the
      string must not be empty. */
  function Capitalize(s: string): string
    requires |s| > 0
  {
    [UpperCase(s[0])] + s[1..]
  }

  /** No character of `s` is a space. */
  predicate NoSpace(s: string) {
    forall i :: 0 <= i < |s| ==> s[i] != ' '
  }

  /** A word followed by a space determines the word: if `a + " "` starts
      `b + " " + t` and neither word holds a space, the words are equal. */
  lemma WordBeforeSpace(a: string, b: string, t: string)
    requires NoSpace(a) && NoSpace(b)
    requires a + " " <= b + " " + t
    ensures a == b
  {
    var u := b + " " + t;
    if |a| < |b| {
      PrefixAt(a + " ", u, |a|);
      assert false;
    } else if |a| > |b| {
      PrefixAt(a + " ", u, |b|);
      assert false;
    } else {
      assert a == (a + " ")[..|a|] == u[..|b|] == b;
    }
  }

  lemma PrefixAt(x: string, y: string, i: nat)
    requires x <= y && i < |x|
    ensures x[i] == y[i]
  {
  }
}
