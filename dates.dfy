/** Calendar dates and their rendering with the strftime pattern "%Y_%m_%d",
    which both the extractor (the export file name) and the Redshift helpers
    (the default date of the S3 URI) use. */
module Dates {

  type Year = y: int | 1 <= y <= 9999 witness 1
  type Month = m: int | 1 <= m <= 12 witness 1
  type Day = d: int | 1 <= d <= 31 witness 1

  /** A value of Python's datetime.date (MINYEAR..MAXYEAR); day-of-month
      validity per month is not needed by anything here. */
  datatype Date = Date(year: Year, month: Month, day: Day)

  function DigitChar(n: nat): (c: char)
    requires n < 10
    ensures '0' <= c <= '9'
    ensures c as int - '0' as int == n
  {
    ['0', '1', '2', '3', '4', '5', '6', '7', '8', '9'][n]
  }

  predicate AllDigits(s: string) {
    forall i :: 0 <= i < |s| ==> '0' <= s[i] <= '9'
  }

  /** Decimal rendering without leading zeros, as %Y prints a year. */
  function Decimal(n: nat): (s: string)
    ensures 1 <= |s| && AllDigits(s)
    ensures n < 10 <==> |s| == 1
  {
    if n < 10 then [DigitChar(n)] else Decimal(n / 10) + [DigitChar(n % 10)]
  }

  /** Two-digit zero-padded rendering, as %m and %d print a month and a day. */
  function Pad2(n: nat): (s: string)
    requires n < 100
    ensures |s| == 2 && AllDigits(s)
  {
    [DigitChar(n / 10), DigitChar(n % 10)]
  }

  /** strftime("%Y_%m_%d"). */
  function FormatYmd(d: Date): (s: string)
    ensures |s| == |Decimal(d.year)| + 6
    ensures '/' !in s
    ensures s[|s| - 6] == '_' && s[|s| - 3] == '_'
  {
    Decimal(d.year) + "_" + Pad2(d.month) + "_" + Pad2(d.day)
  }

  /** The number a string of decimal digits denotes. */
  function DigitsValue(s: string): nat
    requires AllDigits(s)
  {
    if s == [] then 0
    else 10 * DigitsValue(s[..|s| - 1]) + (s[|s| - 1] as int - '0' as int)
  }

  /** Decimal renders n: its digits denote n. */
  lemma {:induction false} DecimalValue(n: nat)
    ensures DigitsValue(Decimal(n)) == n
  {
    if n >= 10 {
      var s := Decimal(n);
      assert s[..|s| - 1] == Decimal(n / 10);
      DecimalValue(n / 10);
    }
  }

  lemma Pad2Value(n: nat)
    requires n < 100
    ensures DigitsValue(Pad2(n)) == n
  {
    var s := Pad2(n);
    assert s[..1][..0] == [];
    assert s[..|s| - 1] == [DigitChar(n / 10)];
  }

  /** The three '_'-separated fields of FormatYmd(d) denote, in order, the
      year, the month and the day of d. */
  lemma FormatYmdFields(d: Date)
    ensures var s := FormatYmd(d);
      && AllDigits(s[..|s| - 6]) && DigitsValue(s[..|s| - 6]) == d.year
      && AllDigits(s[|s| - 5..|s| - 3]) && DigitsValue(s[|s| - 5..|s| - 3]) == d.month
      && AllDigits(s[|s| - 2..]) && DigitsValue(s[|s| - 2..]) == d.day
  {
    var s := FormatYmd(d);
    var y := Decimal(d.year);
    assert s == y + "_" + Pad2(d.month) + "_" + Pad2(d.day);
    assert s[..|s| - 6] == y;
    assert s[|s| - 5..|s| - 3] == Pad2(d.month);
    assert s[|s| - 2..] == Pad2(d.day);
    DecimalValue(d.year);
    Pad2Value(d.month);
    Pad2Value(d.day);
  }

  lemma DigitCharInjective(a: nat, b: nat)
    requires a < 10 && b < 10 && DigitChar(a) == DigitChar(b)
    ensures a == b
  {
  }

  lemma {:induction false} DecimalInjective(a: nat, b: nat)
    requires Decimal(a) == Decimal(b)
    ensures a == b
    decreases a
  {
    var s := Decimal(a);
    if a < 10 {
      assert |s| == 1;
      if b >= 10 { assert false; }
      DigitCharInjective(a, b);
    } else {
      if b < 10 { assert false; }
      assert s == Decimal(a / 10) + [DigitChar(a % 10)];
      assert s == Decimal(b / 10) + [DigitChar(b % 10)];
      assert s[|s| - 1] == DigitChar(a % 10) == DigitChar(b % 10);
      DigitCharInjective(a % 10, b % 10);
      assert s[..|s| - 1] == Decimal(a / 10) == Decimal(b / 10);
      DecimalInjective(a / 10, b / 10);
    }
  }

  lemma Pad2Injective(a: nat, b: nat)
    requires a < 100 && b < 100 && Pad2(a) == Pad2(b)
    ensures a == b
  {
  }

  /** Two different days never render to the same "%Y_%m_%d" string, so
      daily export files never overwrite each other. */
  lemma FormatYmdInjective(d1: Date, d2: Date)
    requires FormatYmd(d1) == FormatYmd(d2)
    ensures d1 == d2
  {
    var s := FormatYmd(d1);
    var y1, y2 := Decimal(d1.year), Decimal(d2.year);
    assert |y1| == |y2|;
    var n := |y1|;
    assert s == y1 + "_" + Pad2(d1.month) + "_" + Pad2(d1.day);
    assert s == y2 + "_" + Pad2(d2.month) + "_" + Pad2(d2.day);
    assert s[..n] == y1 && s[..n] == y2;
    assert s[n + 1..n + 3] == Pad2(d1.month) && s[n + 1..n + 3] == Pad2(d2.month);
    assert s[n + 4..] == Pad2(d1.day) && s[n + 4..] == Pad2(d2.day);
    DecimalInjective(d1.year, d2.year);
    Pad2Injective(d1.month, d2.month);
    Pad2Injective(d1.day, d2.day);
  }
}
