/** Base-10 rendering of integers, as `encoding/json` writes an integer field
    (`strconv.AppendInt(b, v, 10)`), and a strict parser for the integer
    subset of the JSON number grammar (section 6 of RFC 8259):
    `[ "-" ] ( "0" / digit1-9 *DIGIT )`. */
module Decimal {
  import opened Common

  predicate IsDigit(c: char) {
    '0' <= c <= '9'
  }

  predicate AllDigits(s: string) {
    forall i :: 0 <= i < |s| ==> IsDigit(s[i])
  }

  function DigitValue(c: char): (d: nat)
    requires IsDigit(c)
    ensures d < 10
  {
    c as int - '0' as int
  }

  function DigitChar(d: nat): (c: char)
    requires d < 10
    ensures IsDigit(c) && DigitValue(c) == d
  {
    (d + '0' as int) as char
  }

  /** A non-empty digit string without a superfluous leading zero. */
  predicate IsCanonicalDigits(s: string) {
    |s| > 0 && AllDigits(s) && (s[0] == '0' ==> |s| == 1)
  }

  /** An integer as RFC 8259 section 6 allows it: optional minus, then a
      canonical digit string. */
  predicate IsJsonInt(s: string) {
    if |s| > 0 && s[0] == '-' then IsCanonicalDigits(s[1..]) else IsCanonicalDigits(s)
  }

  /** The digits of `n`, most significant first, with no leading zero. */
  function NatDigits(n: nat): (s: string)
    ensures IsCanonicalDigits(s)
    ensures s[0] == '0' <==> n == 0
    decreases n
  {
    if n < 10 then [DigitChar(n)] else NatDigits(n / 10) + [DigitChar(n % 10)]
  }

  /** The number a digit string denotes (leading zeros allowed). */
  function DigitsValue(s: string): nat
    requires AllDigits(s)
    decreases |s|
  {
    if s == [] then 0 else 10 * DigitsValue(s[..|s| - 1]) + DigitValue(s[|s| - 1])
  }

  /** `strconv.FormatInt(x, 10)`: a minus sign exactly for negative values. */
  function FormatInt(x: int): (s: string)
    ensures IsJsonInt(s)
    ensures |s| > 0 && (s[0] == '-' <==> x < 0)
  {
    if x < 0 then "-" + NatDigits(-x) else NatDigits(x)
  }

  /** Reads back an integer written in the JSON integer grammar; anything
      else (empty text, stray characters, leading zeros, "+") is refused. */
  function ParseInt(s: string): (r: Option<int>)
    ensures r.Some? <==> IsJsonInt(s)
    ensures r.Some? ==> (r.value < 0 ==> s[0] == '-')
  {
    if !IsJsonInt(s) then None
    else if s[0] == '-' then Some(-(DigitsValue(s[1..]) as int))
    else Some(DigitsValue(s))
  }

  /** The rendering uses only digits and the minus sign. */
  lemma FormatIntAlphabet(x: int)
    ensures forall i :: 0 <= i < |FormatInt(x)| ==> FormatInt(x)[i] == '-' || IsDigit(FormatInt(x)[i])
  {
    var s := FormatInt(x);
    if x < 0 {
      assert forall i :: 1 <= i < |s| ==> s[i] == NatDigits(-x)[i - 1];
    }
  }

  lemma {:induction false} DigitsValueOfNatDigits(n: nat)
    ensures DigitsValue(NatDigits(n)) == n
    decreases n
  {
    if n >= 10 {
      var s := NatDigits(n);
      DigitsValueOfNatDigits(n / 10);
      assert s[..|s| - 1] == NatDigits(n / 10);
    }
  }

  /** A digit string that does not start with '0' denotes a positive number. */
  lemma {:induction false} LeadingDigitPositive(s: string)
    requires |s| > 0 && AllDigits(s) && s[0] != '0'
    ensures DigitsValue(s) > 0
    decreases |s|
  {
    if |s| > 1 {
      LeadingDigitPositive(s[..|s| - 1]);
    }
  }

  /** A canonical digit string is the rendering of the number it denotes. */
  lemma {:induction false} NatDigitsOfDigitsValue(s: string)
    requires IsCanonicalDigits(s)
    ensures NatDigits(DigitsValue(s)) == s
    decreases |s|
  {
    if |s| > 1 {
      var init := s[..|s| - 1];
      LeadingDigitPositive(init);
      NatDigitsOfDigitsValue(init);
      var n := DigitsValue(s);
      assert n / 10 == DigitsValue(init) && n % 10 == DigitValue(s[|s| - 1]);
      assert s == init + [s[|s| - 1]];
    }
  }

  /** Decoding undoes encoding for every integer, negative ones included. */
  lemma ParseFormatInt(x: int)
    ensures ParseInt(FormatInt(x)) == Some(x)
  {
    var s := FormatInt(x);
    if x < 0 {
      assert s[1..] == NatDigits(-x);
      DigitsValueOfNatDigits(-x);
    } else {
      DigitsValueOfNatDigits(x);
    }
  }

  /** The rendering is canonical: a text decodes to `x` exactly when it is
      the rendering of `x`, except that the grammar also admits "-0" for 0. */
  lemma ParseIntIffFormat(s: string, x: int)
    ensures ParseInt(s) == Some(x) <==> s == FormatInt(x) || (x == 0 && s == "-0")
  {
    if s == FormatInt(x) {
      ParseFormatInt(x);
    }
    if x == 0 && s == "-0" {
      assert s[1..] == "0" && IsCanonicalDigits(s[1..]);
      assert DigitsValue(s[1..]) == 10 * DigitsValue([]) + DigitValue('0');
    }
    if ParseInt(s) == Some(x) {
      if s[0] == '-' {
        NatDigitsOfDigitsValue(s[1..]);
        if DigitsValue(s[1..]) == 0 {
          assert NatDigits(0) == "0";
        } else {
          assert s == "-" + s[1..];
        }
      } else {
        NatDigitsOfDigitsValue(s);
      }
    }
  }
}
