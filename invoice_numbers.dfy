/**
 * Invoice numbers: `f"INV-{random.randint(2000, 9999)}"`. The random draw is
 * a parameter; this module gives Python's decimal rendering of it and proves
 * that an invoice number determines, and is determined by, its number.
 */
module InvoiceNumbers {

  const PREFIX := "INV-"
  const MIN_NUMBER := 2000
  const MAX_NUMBER := 9999

  predicate IsDigit(c: char)
  {
    '0' <= c <= '9'
  }

  predicate AllDigits(s: string)
  {
    forall i :: 0 <= i < |s| ==> IsDigit(s[i])
  }

  /** A decimal numeral as Python's `str` prints one: digits, no leading zero except in "0". */
  predicate IsDecimal(s: string)
  {
    s != [] && AllDigits(s) && (s[0] == '0' ==> |s| == 1)
  }

  function DigitChar(d: nat): char
    requires d < 10
  {
    ('0' as int + d) as char
  }

  /** The number a string of decimal digits denotes. */
  function DigitsValue(s: string): nat
    requires AllDigits(s)
  {
    if s == [] then 0
    else DigitsValue(s[..|s| - 1]) * 10 + (s[|s| - 1] as int - '0' as int)
  }

  /** `str(n)` for a natural number. */
  function Decimal(n: nat): string
  {
    if n < 10 then [DigitChar(n)] else Decimal(n / 10) + [DigitChar(n % 10)]
  }

  /** `str(n)` is a well-formed numeral and reads back as `n`. */
  lemma {:induction false} DecimalRoundTrip(n: nat)
    ensures IsDecimal(Decimal(n))
    ensures DigitsValue(Decimal(n)) == n
  {
    if n >= 10 {
      DecimalRoundTrip(n / 10);
      var s := Decimal(n);
      assert s[..|s| - 1] == Decimal(n / 10);
      assert s[0] == Decimal(n / 10)[0];
    }
  }

  /** Conversely, every well-formed numeral is `str` of the number it denotes. */
  lemma {:induction false} NumeralRoundTrip(s: string)
    requires IsDecimal(s)
    ensures Decimal(DigitsValue(s)) == s
  {
    if |s| > 1 {
      var p := s[..|s| - 1];
      assert IsDecimal(p) by {
        assert p[0] == s[0];
      }
      NumeralRoundTrip(p);
      assert Decimal(0) == "0";
      assert DigitsValue(p) != 0;
      var v := DigitsValue(s);
      assert v / 10 == DigitsValue(p) && v % 10 == s[|s| - 1] as int - '0' as int;
      assert s == p + [s[|s| - 1]];
    }
  }

  /** A number of four digits is printed with four characters. */
  lemma FourDigits(n: nat)
    requires 1000 <= n <= 9999
    ensures |Decimal(n)| == 4
  {
    assert |Decimal(n / 1000)| == 1;
    assert |Decimal(n / 100)| == |Decimal(n / 1000)| + 1;
    assert |Decimal(n / 10)| == |Decimal(n / 100)| + 1;
  }

  /** The form of the invoice numbers that invoice creation generates. */
  predicate IsInvoiceNumber(s: string)
  {
    |s| > |PREFIX| && s[..|PREFIX|] == PREFIX
    && IsDecimal(s[|PREFIX|..])
    && MIN_NUMBER <= DigitsValue(s[|PREFIX|..]) <= MAX_NUMBER
  }

  /** The random number an invoice number was made from. */
  function NumberOf(s: string): nat
    requires IsInvoiceNumber(s)
  {
    DigitsValue(s[|PREFIX|..])
  }

  /** `f"INV-{n}"`: eight characters, of the generated form, carrying `n`. */
  function InvoiceNumber(n: nat): (s: string)
    requires MIN_NUMBER <= n <= MAX_NUMBER
    ensures |s| == 8
    ensures IsInvoiceNumber(s) && NumberOf(s) == n
  {
    var s := PREFIX + Decimal(n);
    assert s[|PREFIX|..] == Decimal(n);
    DecimalRoundTrip(n);
    FourDigits(n);
    s
  }

  /** Every string of the generated form is the invoice number of its own number. */
  lemma InvoiceNumberOfForm(s: string)
    requires IsInvoiceNumber(s)
    ensures InvoiceNumber(NumberOf(s)) == s
  {
    NumeralRoundTrip(s[|PREFIX|..]);
    assert s == PREFIX + s[|PREFIX|..];
  }
}
