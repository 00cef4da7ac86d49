/** Letters and decimal numbers, as the standard library of C++ treats them in the classic locale. */
module Texts {
  import opened Options

  function Lower(c: char): char {
    if 'A' <= c <= 'Z' then c - 'A' + 'a' else c
  }

  function Digit(d: nat): char
    requires d < 10
  {
    '0' + d as char
  }

  /** The decimal text of a natural number. */
  function Decimal(n: nat): (text: string)
    ensures text != []
  {
    if n < 10 then [Digit(n)] else Decimal(n / 10) + [Digit(n % 10)]
  }

  function IntegerText(n: int): string {
    if n < 0 then "-" + Decimal(-n) else Decimal(n)
  }

  // ----- Reading a number -----

  predicate IsDigit(c: char) {
    '0' <= c <= '9'
  }

  predicate IsSpace(c: char) {
    c == ' ' || '\t' <= c <= '\r'
  }

  function SkipSpaces(text: string): string {
    if text != "" && IsSpace(text[0]) then SkipSpaces(text[1..]) else text
  }

  /** The digits a text begins with. */
  function LeadingDigits(text: string): (digits: string)
    ensures forall c | c in digits :: IsDigit(c)
  {
    if text == "" || !IsDigit(text[0]) then "" else [text[0]] + LeadingDigits(text[1..])
  }

  function NumberOf(digits: string): nat
    requires forall c | c in digits :: IsDigit(c)
  {
    if digits == "" then 0
    else
      var last := digits[|digits| - 1];
      assert last in digits && IsDigit(last);
      10 * NumberOf(digits[..|digits| - 1]) + (last as int - '0' as int)
  }

  /** The whole number a text begins with, after blanks and a sign; anything may follow it. */
  function LeadingInteger(text: string): Option<int> {
    var number := SkipSpaces(text);
    var signed := number != "" && (number[0] == '-' || number[0] == '+');
    var digits := LeadingDigits(if signed then number[1..] else number);
    if digits == "" then None
    else
      var value: int := NumberOf(digits);
      Some(if signed && number[0] == '-' then -value else value)
  }

  lemma {:induction false} DecimalIsRead(n: nat)
    ensures forall c | c in Decimal(n) :: IsDigit(c)
    ensures LeadingDigits(Decimal(n)) == Decimal(n) && NumberOf(Decimal(n)) == n
  {
    if n >= 10 {
      DecimalIsRead(n / 10);
    }
    DigitsLead(Decimal(n));
  }

  lemma {:induction false} DigitsLead(digits: string)
    requires forall c | c in digits :: IsDigit(c)
    ensures LeadingDigits(digits) == digits
  {
    if digits != "" {
      DigitsLead(digits[1..]);
    }
  }

  /** Reading the text of a whole number gives the number back. */
  lemma IntegerRoundTrip(n: int)
    ensures LeadingInteger(IntegerText(n)) == Some(n)
  {
    DecimalIsRead(if n < 0 then -n else n);
    if n < 0 {
      assert IntegerText(n)[1..] == Decimal(-n);
    }
  }
}
