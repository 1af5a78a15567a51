/** Decimal text as the C library prints and reads it: "%*lld" and atol(). */
module Decimal {

  function Pow10(n: nat): (p: nat)
    ensures p > 0
  {
    if n == 0 then 1 else 10 * Pow10(n - 1)
  }

  predicate IsDigit(c: char) {
    '0' <= c <= '9'
  }

  predicate IsBlank(c: char) {
    c == ' ' || '\t' <= c <= '\r'
  }

  function DigitChar(d: nat): char
    requires d < 10
  {
    '0' + d as char
  }

  function DigitValue(c: char): nat
    requires IsDigit(c)
  {
    (c - '0') as nat
  }

  function DigitCount(n: nat): (k: nat)
    ensures k >= 1
  {
    if n < 10 then 1 else DigitCount(n / 10) + 1
  }

  /** The digits printed for a non-negative number. */
  function Digits(n: nat): (s: string)
    ensures |s| == DigitCount(n)
    ensures forall c <- s :: IsDigit(c)
  {
    if n < 10 then [DigitChar(n)] else Digits(n / 10) + [DigitChar(n % 10)]
  }

  function Blanks(n: nat): (s: string)
    ensures |s| == n
    ensures forall c <- s :: c == ' '
  {
    seq(n, _ => ' ')
  }

  /** "%*lld": right-justified in a field of at least `width` characters. */
  function RightJustified(width: nat, n: nat): string {
    var s := Digits(n);
    if |s| < width then Blanks(width - |s|) + s else s
  }

  /** The value of the digits at the front of s, continuing from acc. */
  function LeadingNumber(s: string, acc: nat): nat {
    if s == [] || !IsDigit(s[0]) then acc
    else LeadingNumber(s[1..], 10 * acc + DigitValue(s[0]))
  }

  function SkipBlanks(s: string): string {
    if s == [] || !IsBlank(s[0]) then s else SkipBlanks(s[1..])
  }

  /** atol(): blanks, an optional sign, then digits up to the first other character. */
  function Atol(s: string): int {
    var t := SkipBlanks(s);
    if t != [] && t[0] == '-' then -(LeadingNumber(t[1..], 0) as int)
    else if t != [] && t[0] == '+' then LeadingNumber(t[1..], 0)
    else LeadingNumber(t, 0)
  }

  lemma {:induction false} LeadingNumberAppend(s: string, d: char, rest: string, acc: nat)
    requires forall c <- s :: IsDigit(c)
    requires IsDigit(d)
    requires rest == [] || !IsDigit(rest[0])
    ensures LeadingNumber(s + [d] + rest, acc) == 10 * LeadingNumber(s, acc) + DigitValue(d)
  {
    if s == [] {
      assert (s + [d] + rest)[1..] == rest;
    } else {
      assert (s + [d] + rest)[1..] == s[1..] + [d] + rest;
      LeadingNumberAppend(s[1..], d, rest, 10 * acc + DigitValue(s[0]));
    }
  }

  /** Reading digits gives back the number, whatever other text follows them. */
  lemma {:induction false} DigitsRead(n: nat, rest: string)
    requires rest == [] || !IsDigit(rest[0])
    ensures LeadingNumber(Digits(n) + rest, 0) == n
  {
    if n < 10 {
      LeadingNumberAppend([], DigitChar(n), rest, 0);
      assert [] + [DigitChar(n)] + rest == Digits(n) + rest;
    } else {
      LeadingNumberAppend(Digits(n / 10), DigitChar(n % 10), rest, 0);
      DigitsRead(n / 10, []);
      assert Digits(n / 10) + [] == Digits(n / 10);
    }
  }

  lemma {:induction false} SkipBlanksPrefix(k: nat, s: string)
    requires s == [] || !IsBlank(s[0])
    ensures SkipBlanks(Blanks(k) + s) == s
  {
    if k == 0 {
      assert Blanks(0) + s == s;
    } else {
      assert (Blanks(k) + s)[1..] == Blanks(k - 1) + s;
      SkipBlanksPrefix(k - 1, s);
    }
  }

  /** A printed field reads back as the number it was printed from. */
  lemma AtolRightJustified(width: nat, n: nat, rest: string)
    requires rest == [] || !IsDigit(rest[0])
    ensures Atol(RightJustified(width, n) + rest) == n
  {
    var d := Digits(n);
    assert IsDigit(d[0]);
    DigitsRead(n, rest);
    if |d| < width {
      assert RightJustified(width, n) + rest == Blanks(width - |d|) + (d + rest);
      SkipBlanksPrefix(width - |d|, d + rest);
    }
  }

  lemma {:induction false} DigitsWidth(n: nat, width: nat)
    requires width > 0
    ensures |Digits(n)| <= width <==> n < Pow10(width)
  {
    if n < 10 {
      assert Pow10(width) == 10 * Pow10(width - 1);
    } else if width > 1 {
      DigitsWidth(n / 10, width - 1);
    } else {
      assert Pow10(1) == 10 * Pow10(0);
    }
  }

  /** A field keeps its width exactly as long as the number has no more digits than that. */
  lemma FieldWidth(width: nat, n: nat)
    requires width > 0
    ensures |RightJustified(width, n)| == width <==> n < Pow10(width)
  {
    hide LeadingNumber;
    DigitsWidth(n, width);
  }
}
