/** Zero-padded decimal printing and parsing, and the e-ticket number built on it
    (app/services/issuing.py). */
module Digits {
  import opened Wrappers

  const FORM_CODE := "232"
  const TICKET_DIGITS := 10

  function Pow10(width: nat): (p: nat)
    ensures p > 0
  {
    if width == 0 then 1 else 10 * Pow10(width - 1)
  }

  predicate IsDigit(c: char) {
    '0' <= c <= '9'
  }

  /** The zeros of the decimal digit sets of Unicode 15.0 (general category Nd) other than
      ASCII; the other nine digits of a set follow its zero. The first is Arabic-Indic. */
  const OTHER_ZEROS: seq<int> := [0x0660] + FURTHER_ZEROS

  const FURTHER_ZEROS: seq<int> := [
    0x06F0, 0x07C0, 0x0966, 0x09E6, 0x0A66, 0x0AE6, 0x0B66, 0x0BE6, 0x0C66, 0x0CE6, 0x0D66, 0x0DE6,
    0x0E50, 0x0ED0, 0x0F20, 0x1040, 0x1090, 0x17E0, 0x1810, 0x1946, 0x19D0, 0x1A80, 0x1A90, 0x1B50,
    0x1BB0, 0x1C40, 0x1C50, 0xA620, 0xA8D0, 0xA900, 0xA9D0, 0xA9F0, 0xAA50, 0xABF0, 0xFF10, 0x104A0,
    0x10D30, 0x11066, 0x110F0, 0x11136, 0x111D0, 0x112F0, 0x11450, 0x114D0, 0x11650, 0x116C0, 0x11730, 0x118E0,
    0x11950, 0x11C50, 0x11D50, 0x11DA0, 0x11F50, 0x16A60, 0x16AC0, 0x16B50, 0x1D7CE, 0x1D7D8, 0x1D7E2, 0x1D7EC,
    0x1D7F6, 0x1E140, 0x1E2F0, 0x1E4F0, 0x1E950, 0x1FBF0]

  /** The value of a digit of one of these sets. */
  function ValueIn(zeros: seq<int>, c: char): Option<nat> {
    if zeros == [] then None
    else if zeros[0] <= c as int < zeros[0] + 10 then Some(c as int - zeros[0])
    else ValueIn(zeros[1..], c)
  }

  /** What int() takes a character for, and `\d` matches: a decimal digit of any script. */
  function DigitValue(c: char): Option<nat> {
    if IsDigit(c) then Some(c as int - '0' as int) else ValueIn(OTHER_ZEROS, c)
  }

  lemma {:induction false} ValueInBelowTen(zeros: seq<int>, c: char)
    ensures ValueIn(zeros, c).Some? ==> ValueIn(zeros, c).value < 10
  {
    if zeros == [] {
    } else {
      ValueInBelowTen(zeros[1..], c);
    }
  }

  /** With the ASCII digits, the 68 sets of ten. */
  lemma SixtyEightSets()
    ensures |OTHER_ZEROS| + 1 == 68 && 10 * (|OTHER_ZEROS| + 1) == 680
  {
  }

  /** The Arabic-Indic digits are decimal digits, and are not ASCII. */
  lemma ArabicIndicDigits(c: char)
    requires 0x660 <= c as int < 0x66A
    ensures DigitValue(c) == Some(c as int - 0x660) && !IsDigit(c)
  {
    assert OTHER_ZEROS[0] == 0x660;
  }

  /** A text that int() reads as a number. */
  predicate IsNumeral(text: string) {
    forall i :: 0 <= i < |text| ==> DigitValue(text[i]).Some?
  }

  predicate AllAscii(text: string) {
    forall i :: 0 <= i < |text| ==> IsDigit(text[i])
  }

  /** n printed with exactly `width` digits, most significant first (the format `0{width}d`
      for n below 10^width). */
  function Padded(n: nat, width: nat): string {
    if width == 0 then "" else Padded(n / 10, width - 1) + ['0' + (n % 10) as char]
  }

  /** The number that int() reads. */
  function Value(text: string): nat
    requires IsNumeral(text)
  {
    if text == "" then 0
    else
      var last := text[|text| - 1];
      assert DigitValue(last).Some?;
      Value(text[..|text| - 1]) * 10 + DigitValue(last).value
  }

  lemma {:induction false} PaddedShape(n: nat, width: nat)
    ensures |Padded(n, width)| == width && AllAscii(Padded(n, width))
  {
    if width == 0 {
    } else {
      PaddedShape(n / 10, width - 1);
    }
  }

  lemma AsciiIsNumeral(text: string)
    requires AllAscii(text)
    ensures IsNumeral(text)
  {
  }

  lemma DigitPrints(n: nat)
    ensures IsDigit('0' + (n % 10) as char) && DigitValue('0' + (n % 10) as char) == Some(n % 10)
  {
  }

  /** Parsing undoes padded printing. */
  lemma {:induction false} ValueOfPadded(n: nat, width: nat)
    requires n < Pow10(width)
    ensures |Padded(n, width)| == width && AllAscii(Padded(n, width)) && IsNumeral(Padded(n, width))
    ensures Value(Padded(n, width)) == n
  {
    PaddedShape(n, width);
    AsciiIsNumeral(Padded(n, width));
    if width == 0 {
    } else {
      ValueOfPadded(n / 10, width - 1);
      assert Padded(n, width)[..width - 1] == Padded(n / 10, width - 1);
      DigitPrints(n);
    }
  }

  lemma LastDigit(tens: nat, units: nat)
    requires units < 10
    ensures (tens * 10 + units) / 10 == tens && (tens * 10 + units) % 10 == units
  {
  }

  /** Printing a digit's value gives the digit back exactly when it is ASCII. */
  lemma PrintedDigit(c: char)
    requires DigitValue(c).Some?
    ensures DigitValue(c).value < 10
    ensures '0' + DigitValue(c).value as char == c <==> IsDigit(c)
  {
    ValueInBelowTen(OTHER_ZEROS, c);
  }

  /** Padded printing undoes parsing exactly when every digit is ASCII. */
  lemma {:induction false} PaddedOfValue(text: string)
    requires IsNumeral(text)
    ensures Value(text) < Pow10(|text|) && |Padded(Value(text), |text|)| == |text|
    ensures Padded(Value(text), |text|) == text <==> AllAscii(text)
  {
    PaddedShape(Value(text), |text|);
    if text == "" {
    } else {
      var init, last := text[..|text| - 1], text[|text| - 1];
      assert DigitValue(last).Some?;
      PaddedOfValue(init);
      PrintedDigit(last);
      LastDigit(Value(init), DigitValue(last).value);
      var printed := Padded(Value(init), |init|) + ['0' + DigitValue(last).value as char];
      assert Padded(Value(text), |text|) == printed;
      assert text == init + [last];
      assert printed[..|init|] == Padded(Value(init), |init|);
    }
  }

  /** The ticket number of an order: the form code, then the last ten digits of its id. */
  function TicketNumber(order: nat): string {
    FORM_CODE + Padded(order % Pow10(TICKET_DIGITS), TICKET_DIGITS)
  }

  /** A ticket number has 13 digits, and its last ten give back the order id modulo 10^10. */
  lemma TicketNumberParses(order: nat)
    ensures |TicketNumber(order)| == 13
    ensures AllAscii(TicketNumber(order)) && IsNumeral(TicketNumber(order)[3..])
    ensures Value(TicketNumber(order)[3..]) == order % Pow10(TICKET_DIGITS)
  {
    ValueOfPadded(order % Pow10(TICKET_DIGITS), TICKET_DIGITS);
    assert TicketNumber(order)[3..] == Padded(order % Pow10(TICKET_DIGITS), TICKET_DIGITS);
  }

  /** Two orders collide on their ticket number exactly when their ids agree modulo 10^10. */
  lemma TicketsCollideExactly(a: nat, b: nat)
    ensures TicketNumber(a) == TicketNumber(b) <==> a % Pow10(TICKET_DIGITS) == b % Pow10(TICKET_DIGITS)
  {
    TicketNumberParses(a);
    TicketNumberParses(b);
  }

  /** Digits written behind others: the value of both. */
  lemma {:induction false} ValueConcat(a: string, b: string)
    requires IsNumeral(a) && IsNumeral(b)
    ensures IsNumeral(a + b) && Value(a + b) == Value(a) * Pow10(|b|) + Value(b)
  {
    if b == "" {
      assert a + b == a;
    } else {
      var init, last := b[..|b| - 1], b[|b| - 1];
      ValueConcat(a, init);
      assert DigitValue(last).Some?;
      assert (a + b)[..|a + b| - 1] == a + init && (a + b)[|a + b| - 1] == last;
      calc {
        Value(a + b);
        Value(a + init) * 10 + DigitValue(last).value;
        (Value(a) * Pow10(|init|) + Value(init)) * 10 + DigitValue(last).value;
        { Shift(Value(a), Pow10(|init|)); }
        Value(a) * Pow10(|b|) + Value(b);
      }
    }
  }

  lemma Shift(n: nat, p: nat)
    ensures n * p * 10 == n * (10 * p)
  {
  }

  /** The ticket in figures: 13 ASCII digits, 232 in front of the last ten digits of the id. */
  predicate Carries(ticket: string, order: nat) {
    && |ticket| == 13 && AllAscii(ticket) && IsNumeral(ticket)
    && Value(ticket) == 2_320_000_000_000 + order % 10_000_000_000
  }

  lemma FormCodeValue()
    ensures IsNumeral(FORM_CODE) && Value(FORM_CODE) == 232 && AllAscii(FORM_CODE) && |FORM_CODE| == 3
  {
    AsciiIsNumeral(FORM_CODE);
    var two := FORM_CODE[..2];
    var one := two[..1];
    AppendDigit("", FORM_CODE[0]);
    AppendDigit(one, FORM_CODE[1]);
    AppendDigit(two, FORM_CODE[2]);
    assert "" + [FORM_CODE[0]] == one && one + [FORM_CODE[1]] == two && two + [FORM_CODE[2]] == FORM_CODE;
  }

  lemma AppendDigit(text: string, c: char)
    requires IsNumeral(text) && IsDigit(c)
    ensures IsNumeral(text + [c]) && Value(text + [c]) == Value(text) * 10 + (c as int - '0' as int)
  {
    assert (text + [c])[..|text|] == text;
  }

  /** Every ticket number carries the id of its order. */
  lemma TicketCarriesId(order: nat)
    ensures Carries(TicketNumber(order), order)
  {
    var last := order % Pow10(TICKET_DIGITS);
    assert Pow10(TICKET_DIGITS) == 10_000_000_000 by {
      assert Pow10(5) == 100_000;
      assert Pow10(TICKET_DIGITS) == 100_000 * Pow10(5);
    }
    ValueOfPadded(last, TICKET_DIGITS);
    FormCodeValue();
    ValueConcat(FORM_CODE, Padded(last, TICKET_DIGITS));
  }
}
