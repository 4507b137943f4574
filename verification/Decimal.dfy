/** Decimal integers on the wire: printing a number and reading one back, with the optional sign,
    leading zeros and range check of the standard reader. */
module Decimal {
  import opened Wrappers
  import opened Model

  predicate IsDigit(c: char) {
    '0' <= c <= '9'
  }

  function Digit(d: int): (c: char)
    requires 0 <= d < 10
    ensures IsDigit(c) && DigitValue(c) == d
  {
    (d + 48) as char
  }

  function DigitValue(c: char): (d: int)
    requires IsDigit(c)
    ensures 0 <= d < 10
  {
    c as int - 48
  }

  predicate AllDigits(text: string) {
    forall c <- text :: IsDigit(c)
  }

  function PrintNat(n: nat): (text: string)
    ensures text != "" && AllDigits(text)
  {
    if n < 10 then [Digit(n)] else PrintNat(n / 10) + [Digit(n % 10)]
  }

  function Print(n: int): string {
    if n < 0 then "-" + PrintNat(-n) else PrintNat(n)
  }

  /** The value of a string of digits. */
  function DigitsValue(text: string): nat
    requires AllDigits(text)
  {
    if text == "" then 0 else 10 * DigitsValue(text[..|text| - 1]) + DigitValue(text[|text| - 1])
  }

  function ParseMagnitude(text: string): Option<nat> {
    if text != "" && AllDigits(text) then Some(DigitsValue(text)) else None
  }

  /** A sign may lead, a minus only where the type has one; the value has to be in range. */
  function ParseRange(text: string, low: int, high: int): (r: Option<int>)
    ensures r.Some? ==> low <= r.value <= high
  {
    if text == "" then None
    else
      var negative := text[0] == '-' && low < 0;
      match ParseMagnitude(if negative || text[0] == '+' then text[1..] else text)
      case None => None
      case Some(magnitude) =>
        var value: int := if negative then -(magnitude as int) else magnitude;
        if low <= value <= high then Some(value) else None
  }

  function ParseI64(text: string): (n: Option<I64>) {
    match ParseRange(text, -0x8000_0000_0000_0000, 0x7FFF_FFFF_FFFF_FFFF)
    case None => None
    case Some(value) => Some(value)
  }

  function ParseU16(text: string): Option<int> {
    ParseRange(text, 0, 0xFFFF)
  }

  /** `text` is a sign, if any, and digits, and stands for `value`. A minus needs a signed type. */
  ghost predicate Numeral(text: string, signed: bool, value: int) {
    exists digits ::
      && digits != "" && AllDigits(digits)
      && (((text == digits || text == "+" + digits) && value == DigitsValue(digits))
          || (signed && text == "-" + digits && value == -(DigitsValue(digits) as int)))
  }

  /** Exactly the numerals of a value in range are read, as that value. */
  lemma ReadsNumerals(text: string, low: int, high: int, value: int)
    ensures ParseRange(text, low, high) == Some(value) <==> low <= value <= high && Numeral(text, low < 0, value)
  {
    if ParseRange(text, low, high) == Some(value) {
      var negative := text[0] == '-' && low < 0;
      var digits := if negative || text[0] == '+' then text[1..] else text;
      assert text == [text[0]] + text[1..];
      assert AllDigits(digits) && digits != "";
    }
    if Numeral(text, low < 0, value) {
      var digits :| digits != "" && AllDigits(digits)
                    && (((text == digits || text == "+" + digits) && value == DigitsValue(digits))
                        || (low < 0 && text == "-" + digits && value == -(DigitsValue(digits) as int)));
      assert digits[0] in digits;
      if text != digits {
        assert text[1..] == digits;
      }
    }
  }

  lemma {:induction false} PrintNatValue(n: nat)
    ensures DigitsValue(PrintNat(n)) == n
  {
    if n < 10 {
      assert PrintNat(n)[..0] == "";
    } else {
      var text := PrintNat(n);
      assert text[..|text| - 1] == PrintNat(n / 10);
      PrintNatValue(n / 10);
    }
  }

  lemma ParseDigits(text: string, low: int, high: int)
    requires text != "" && AllDigits(text) && low <= 0
    ensures ParseRange(text, low, high) == if DigitsValue(text) <= high then Some(DigitsValue(text)) else None
  {
    assert text[0] in text;
  }

  lemma ParseNegated(text: string, low: int, high: int)
    requires text != "" && AllDigits(text) && low < 0 <= high
    ensures ParseRange("-" + text, low, high) == if low <= -(DigitsValue(text) as int) then Some(-(DigitsValue(text) as int)) else None
  {
    assert ("-" + text)[1..] == text;
  }

  /** Reading back a printed number gives the number, over the whole range. */
  lemma PrintThenParse(n: I64)
    ensures ParseI64(Print(n)) == Some(n)
  {
    if n < 0 {
      var text := PrintNat(-(n as int));
      PrintNatValue(-(n as int));
      ParseNegated(text, -0x8000_0000_0000_0000, 0x7FFF_FFFF_FFFF_FFFF);
    } else {
      PrintNatValue(n);
      ParseDigits(PrintNat(n), -0x8000_0000_0000_0000, 0x7FFF_FFFF_FFFF_FFFF);
    }
  }

  lemma PrintInjective(a: I64, b: I64)
    ensures Print(a) == Print(b) <==> a == b
  {
    PrintThenParse(a);
    PrintThenParse(b);
  }

  /** Digits and a minus sign are all that is printed. */
  lemma PrintedChars(n: int)
    ensures forall c <- Print(n) :: c == '-' || IsDigit(c)
  {
  }

  /** Whatever is read is a sign and digits. */
  lemma ParsedChars(text: string, low: int, high: int)
    ensures ParseRange(text, low, high).Some? ==> text != "" && forall c <- text :: c == '-' || c == '+' || IsDigit(c)
  {
    if ParseRange(text, low, high).Some? {
      assert text == [text[0]] + text[1..];
    }
  }

  /** A number whose digits do not fit is refused, whatever its leading zeros. */
  lemma {:induction false} LeadingZeros(zeros: nat, n: nat)
    ensures AllDigits(seq(zeros, i => '0') + PrintNat(n))
    ensures DigitsValue(seq(zeros, i => '0') + PrintNat(n)) == n
    ensures ParseI64(seq(zeros, i => '0') + PrintNat(n)) == if n < 0x8000_0000_0000_0000 then Some(n) else None
    decreases n
  {
    var text := seq(zeros, i => '0') + PrintNat(n);
    assert forall c <- text :: IsDigit(c);
    assert text[0] in text;
    if n < 10 {
      assert text[..|text| - 1] == seq(zeros, i => '0');
      ZerosValue(zeros);
    } else {
      assert text[..|text| - 1] == seq(zeros, i => '0') + PrintNat(n / 10);
      LeadingZeros(zeros, n / 10);
    }
  }

  lemma {:induction false} ZerosValue(zeros: nat)
    ensures AllDigits(seq(zeros, i => '0')) && DigitsValue(seq(zeros, i => '0')) == 0
  {
    if zeros > 0 {
      assert seq(zeros, i => '0')[..zeros - 1] == seq(zeros - 1, i => '0');
      ZerosValue(zeros - 1);
    }
  }
}
