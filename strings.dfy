/**
 * String helpers the core relies on: PHP's `strtoupper` and `strval` on integers,
 * `implode`, and a decimal parser that serves as the inverse of `strval`.
 */
module Strings {

  /** ASCII upper-casing of one character, as PHP's `strtoupper` does. */
  function UpperChar(c: char): char {
    if 'a' <= c <= 'z' then (c as int - 'a' as int + 'A' as int) as char else c
  }

  /** PHP `strtoupper`: every ASCII lower-case letter upper-cased, the rest kept. */
  function Upper(s: string): (r: string)
    ensures |r| == |s|
    ensures forall i :: 0 <= i < |s| ==> r[i] == UpperChar(s[i])
  {
    if s == [] then [] else [UpperChar(s[0])] + Upper(s[1..])
  }

  /** The characters that upper-case to the upper-case form of a given letter. */
  lemma UpperCharOfLetter(c: char, letter: char)
    requires 'a' <= letter <= 'z'
    ensures UpperChar(c) == UpperChar(letter) <==> c == letter || c == UpperChar(letter)
  {
  }

  lemma SpellsDesc(u: string)
    ensures u == "DESC" <==> |u| == 4 && u[0] == 'D' && u[1] == 'E' && u[2] == 'S' && u[3] == 'C'
  {
    if |u| == 4 && u[0] == 'D' && u[1] == 'E' && u[2] == 'S' && u[3] == 'C' {
      assert u == "DESC";
    }
  }

  /** `Upper(s) == "DESC"` exactly when `s` spells "desc" in any mix of cases. */
  lemma UpperIsDesc(s: string)
    ensures Upper(s) == "DESC" <==>
      && |s| == 4
      && (s[0] == 'd' || s[0] == 'D') && (s[1] == 'e' || s[1] == 'E')
      && (s[2] == 's' || s[2] == 'S') && (s[3] == 'c' || s[3] == 'C')
  {
    SpellsDesc(Upper(s));
    if |s| == 4 {
      assert UpperChar('d') == 'D' && UpperChar('e') == 'E' && UpperChar('s') == 'S' && UpperChar('c') == 'C';
      UpperCharOfLetter(s[0], 'd');
      UpperCharOfLetter(s[1], 'e');
      UpperCharOfLetter(s[2], 's');
      UpperCharOfLetter(s[3], 'c');
    }
  }

  predicate IsDigit(c: char) {
    '0' <= c <= '9'
  }

  function DigitChar(d: nat): (c: char)
    requires d < 10
    ensures IsDigit(c)
  {
    ('0' as int + d) as char
  }

  /** Decimal digits of a natural number, most significant first, no leading zero. */
  function NatToString(n: nat): (s: string)
    ensures |s| > 0
    ensures forall i :: 0 <= i < |s| ==> IsDigit(s[i])
  {
    if n < 10 then [DigitChar(n)] else NatToString(n / 10) + [DigitChar(n % 10)]
  }

  /** PHP `strval` of an integer: optional minus sign followed by its decimal digits. */
  function IntToString(i: int): (s: string)
    ensures |s| > 0
    ensures s[0] == '-' <==> i < 0
  {
    if i < 0 then "-" + NatToString(-i) else NatToString(i)
  }

  /** The value of a string of decimal digits. */
  function DigitValue(c: char): nat
    requires IsDigit(c)
  {
    c as int - '0' as int
  }

  function ParseNat(s: string): nat
    requires forall i :: 0 <= i < |s| ==> IsDigit(s[i])
  {
    if s == [] then 0 else ParseNat(s[..|s| - 1]) * 10 + DigitValue(s[|s| - 1])
  }

  /** The integer a decimal numeral with an optional leading minus denotes. */
  function ParseInt(s: string): int
    requires |s| > 0
    requires s[0] == '-' ==> forall i :: 1 <= i < |s| ==> IsDigit(s[i])
    requires s[0] != '-' ==> forall i :: 0 <= i < |s| ==> IsDigit(s[i])
  {
    if s[0] == '-' then 0 - ParseNat(s[1..]) else ParseNat(s)
  }

  lemma {:induction false} NatRoundTrip(n: nat)
    ensures ParseNat(NatToString(n)) == n
  {
    if n >= 10 {
      var s := NatToString(n);
      assert s[..|s| - 1] == NatToString(n / 10);
      NatRoundTrip(n / 10);
    }
  }

  /** `strval` loses nothing: the numeral it produces parses back to the integer. */
  lemma IntRoundTrip(i: int)
    ensures ParseInt(IntToString(i)) == i
  {
    var s := IntToString(i);
    if i < 0 {
      assert s[1..] == NatToString(-i);
      NatRoundTrip(-i);
    } else {
      NatRoundTrip(i);
    }
  }

  /** Hence distinct integers always have distinct `strval` strings. */
  lemma IntToStringInjective(i: int, j: int)
    requires IntToString(i) == IntToString(j)
    ensures i == j
  {
    IntRoundTrip(i);
    IntRoundTrip(j);
  }

  /** PHP `implode(sep, parts)`: the parts with `sep` between neighbours. */
  function Join(sep: string, parts: seq<string>): string {
    if parts == [] then ""
    else if |parts| == 1 then parts[0]
    else parts[0] + sep + Join(sep, parts[1..])
  }
}
