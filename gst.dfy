/** The tax calculator and the invoice-number generator (src/lib/utils.ts). */
module GstCalc {
  import opened Text
  import opened Types

  /** What `calculateGST` returns. */
  datatype GstBreakdown = GstBreakdown(cgst: real, sgst: real, igst: real, total: real, taxAmount: real)

  /** Splits the tax on `amount` at `gstRate` percent into equal central and
      state halves; inter-state tax is never charged. */
  function CalculateGst(amount: real, gstRate: real): (r: GstBreakdown)
    ensures r.taxAmount == amount * gstRate / 100.0
    ensures r.cgst == r.sgst && r.cgst + r.sgst + r.igst == r.taxAmount
    ensures r.igst == 0.0
    ensures r.total == amount + r.cgst + r.sgst
  {
    var gstAmount := amount * gstRate / 100.0;
    GstBreakdown(gstAmount / 2.0, gstAmount / 2.0, 0.0, amount + gstAmount, gstAmount)
  }

  /** At rate 0 there is no tax at all and the total is the amount. */
  lemma ZeroRateNoTax(amount: real)
    ensures CalculateGst(amount, 0.0) == GstBreakdown(0.0, 0.0, 0.0, amount, 0.0)
  {
  }

  /** A non-negative amount at a non-negative rate yields no negative figure. */
  lemma {:induction false} NonNegativeInputs(amount: real, gstRate: real)
    requires amount >= 0.0 && gstRate >= 0.0
    ensures var r := CalculateGst(amount, gstRate);
      r.cgst >= 0.0 && r.sgst >= 0.0 && r.igst >= 0.0 && r.taxAmount >= 0.0 && r.total >= amount
  {
    assert amount * gstRate >= 0.0;
  }

  /** The per-row formula `amount * gstRate / 200` of the invoice builder is
      the calculator's central (and state) half. */
  lemma HalfRateIsCgst(amount: real, gstRate: real)
    ensures amount * gstRate / 200.0 == CalculateGst(amount, gstRate).cgst
    ensures amount * gstRate / 200.0 == CalculateGst(amount, gstRate).sgst
  {
  }

  /** The last two characters of the year, as `slice(-2)` takes them. */
  function YearPart(year: nat): string
  {
    var d := Digits(year);
    if |d| >= 2 then d[|d| - 2..] else d
  }

  /** The month number, left-padded with "0" to two characters. */
  function MonthPart(month: nat): string
  {
    var d := Digits(month);
    if |d| >= 2 then d else "0" + d
  }

  /** `generateInvoiceNumber`: "INV-" + YY + MM + "-" + the random suffix.
      The clock's year and month and the random suffix in [1000, 9999] are
      parameters. */
  function GenerateInvoiceNumber(year: nat, month: nat, suffix: nat): (r: string)
    requires 1 <= month <= 12 && 1000 <= suffix <= 9999
    ensures year >= 10 ==> |r| == 13
    ensures year >= 10 ==> ParseInvoiceNumber(r) == Some((year % 100, month, suffix))
  {
    var r := "INV-" + YearPart(year) + MonthPart(month) + "-" + Digits(suffix);
    if year >= 10 then
      GeneratedParses(year, month, suffix, r);
      r
    else r
  }

  /** Reads an `INV-YYMM-NNNN` number back into its year (two digits), month
      and suffix. */
  function ParseInvoiceNumber(s: string): Option<(nat, nat, nat)>
  {
    if |s| == 13 && s[..4] == "INV-" && s[8] == '-' && AllDigits(s[4..8]) && AllDigits(s[9..])
    then Some((DigitsValue(s[4..6]), DigitsValue(s[6..8]), DigitsValue(s[9..])))
    else None
  }

  predicate AllDigits(s: string)
  {
    forall i :: 0 <= i < |s| ==> '0' <= s[i] <= '9'
  }

  lemma {:induction false} DigitsLast(n: nat)
    ensures Digits(n)[|Digits(n)| - 1] == DigitChar(n % 10)
  {
  }

  lemma {:induction false} TwoDigitValue(a: nat, b: nat)
    requires a < 10 && b < 10
    ensures DigitsValue([DigitChar(a), DigitChar(b)]) == 10 * a + b
  {
    var s := [DigitChar(a), DigitChar(b)];
    DigitCharValue(a);
    DigitCharValue(b);
    assert s[..1] == [DigitChar(a)];
    assert [DigitChar(a)][..0] == [];
    assert DigitsValue([DigitChar(a)]) == a;
    assert DigitsValue(s) == DigitsValue(s[..1]) * 10 + b;
  }

  lemma {:induction false} YearPartValue(year: nat)
    requires year >= 10
    ensures |YearPart(year)| == 2 && AllDigits(YearPart(year))
    ensures DigitsValue(YearPart(year)) == year % 100
  {
    LastTwoChars(year);
    TwoDigitValue((year / 10) % 10, year % 10);
    LastTwoDigits(year);
  }

  /** The last two characters of a number of two or more digits. */
  lemma LastTwoChars(n: nat)
    requires n >= 10
    ensures |Digits(n)| >= 2
    ensures Digits(n)[|Digits(n)| - 2..] == [DigitChar((n / 10) % 10), DigitChar(n % 10)]
  {
    var q := n / 10;
    var d, hi := Digits(n), Digits(q);
    assert d == hi + [DigitChar(n % 10)];
    DigitsLast(q);
    assert d[|d| - 2..] == [hi[|hi| - 1], DigitChar(n % 10)];
  }

  lemma LastTwoDigits(n: nat)
    ensures 10 * ((n / 10) % 10) + n % 10 == n % 100
  {
    var q, b := n / 10, n % 10;
    var hi, a := q / 10, q % 10;
    assert n == 100 * hi + (10 * a + b);
    ModHundred(hi, 10 * a + b);
  }

  lemma ModHundred(hi: nat, low: nat)
    requires low < 100
    ensures (100 * hi + low) % 100 == low
  {
  }

  lemma {:induction false} MonthPartValue(month: nat)
    requires 1 <= month <= 12
    ensures |MonthPart(month)| == 2 && AllDigits(MonthPart(month))
    ensures DigitsValue(MonthPart(month)) == month
  {
    if month < 10 {
      assert MonthPart(month) == [DigitChar(0), DigitChar(month)];
      TwoDigitValue(0, month);
    } else {
      assert MonthPart(month) == [DigitChar(1), DigitChar(month - 10)];
      TwoDigitValue(1, month - 10);
    }
  }

  lemma {:induction false} GeneratedParses(year: nat, month: nat, suffix: nat, r: string)
    requires year >= 10 && 1 <= month <= 12 && 1000 <= suffix <= 9999
    requires r == "INV-" + YearPart(year) + MonthPart(month) + "-" + Digits(suffix)
    ensures |r| == 13
    ensures ParseInvoiceNumber(r) == Some((year % 100, month, suffix))
  {
    YearPartValue(year);
    MonthPartValue(month);
    DigitsLength(suffix, 3);
    DigitsRoundTrip(suffix);
    var y, m, n := YearPart(year), MonthPart(month), Digits(suffix);
    assert r[..4] == "INV-";
    assert r[4..6] == y;
    assert r[6..8] == m;
    assert r[4..8] == y + m;
    assert r[8] == '-';
    assert r[9..] == n;
  }
}
