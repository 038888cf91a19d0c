/**
 * `new SimpleDateFormat("yyyy-MM-dd HH:mm:ss").format(d)` once `d` has been
 * broken into calendar fields: every field in decimal, the year padded with
 * zeros to at least four digits and the others to two.
 */
module DateFormat {
  import opened JavaLang

  /** The calendar fields of a `java.util.Date` in the formatter's time zone. */
  datatype DateTime = DateTime(year: nat, month: nat, day: nat, hour: nat, minute: nat, second: nat)

  /**
   * A `java.util.Date` reaches year 292278994 at most, so its year has at
   * most nine digits.
   */
  const YearBound: nat := 1_000_000_000

  predicate IsValid(t: DateTime) {
    && t.year < YearBound
    && 1 <= t.month <= 12
    && 1 <= t.day <= 31
    && t.hour < 24
    && t.minute < 60
    && t.second < 60
  }

  function DigitChar(d: nat): (c: char)
    requires d < 10
    ensures IsDigit(c)
  {
    ('0' as int + d) as char
  }

  function Pow10(k: nat): (p: nat)
    ensures p >= 1
  {
    if k == 0 then 1 else 10 * Pow10(k - 1)
  }

  /** The decimal digits of `n`, most significant first, without leading zeros. */
  function Decimal(n: nat): (s: string)
    ensures |s| >= 1
    ensures forall k :: 0 <= k < |s| ==> IsDigit(s[k])
    ensures n > 0 ==> s[0] != '0'
  {
    if n < 10 then [DigitChar(n)] else Decimal(n / 10) + [DigitChar(n % 10)]
  }

  /** The number a string of decimal digits denotes. */
  function Value(s: string): nat
    requires forall k :: 0 <= k < |s| ==> IsDigit(s[k])
  {
    if s == [] then 0 else 10 * Value(s[..|s| - 1]) + DigitValue(s[|s| - 1])
  }

  function DigitValue(c: char): (d: nat)
    requires IsDigit(c)
    ensures d < 10
  {
    c as int - '0' as int
  }

  /** Reading back what `Decimal` wrote gives the number. */
  lemma {:induction false} DecimalValue(n: nat)
    ensures Value(Decimal(n)) == n
  {
    var s := Decimal(n);
    if n >= 10 {
      DecimalValue(n / 10);
      assert s[..|s| - 1] == Decimal(n / 10);
    } else {
      assert s[..0] == [];
    }
  }

  /** A number below 10^k has at most k digits. */
  lemma {:induction false} DecimalLength(n: nat, k: nat)
    requires 1 <= k && n < Pow10(k)
    ensures |Decimal(n)| <= k
  {
    if n >= 10 {
      assert k >= 2;
      assert n / 10 < Pow10(k - 1);
      DecimalLength(n / 10, k - 1);
    }
  }

  /** `Decimal(n)` preceded by zeros up to `width` characters. */
  function ZeroPad(n: nat, width: nat): (s: string)
    ensures |s| == if |Decimal(n)| < width then width else |Decimal(n)|
    ensures forall k :: 0 <= k < |s| ==> IsDigit(s[k])
  {
    var d := Decimal(n);
    if |d| < width then seq(width - |d|, _ => '0') + d else d
  }

  /** Zero padding does not change the number denoted. */
  lemma {:induction false} ZeroPadValue(n: nat, width: nat)
    ensures Value(ZeroPad(n, width)) == n
    decreases width
  {
    var d := Decimal(n);
    DecimalValue(n);
    if |d| < width {
      ZerosValue(seq(width - |d|, _ => '0'), d);
    }
  }

  /** Leading zeros do not change the number denoted. */
  lemma {:induction false} ZerosValue(z: string, d: string)
    requires forall k :: 0 <= k < |z| ==> z[k] == '0'
    requires forall k :: 0 <= k < |d| ==> IsDigit(d[k])
    ensures Value(z + d) == Value(d)
    decreases |d|
  {
    if d == [] {
      assert z + d == z;
      AllZerosValue(z);
    } else {
      var s := z + d;
      assert s[..|s| - 1] == z + d[..|d| - 1];
      ZerosValue(z, d[..|d| - 1]);
    }
  }

  lemma {:induction false} AllZerosValue(z: string)
    requires forall k :: 0 <= k < |z| ==> z[k] == '0'
    ensures Value(z) == 0
    decreases |z|
  {
    if z != [] {
      AllZerosValue(z[..|z| - 1]);
    }
  }

  /** The text `yyyy-MM-dd HH:mm:ss` for `t`. */
  function Format(t: DateTime): (s: string)
    ensures IsValid(t) ==> 19 <= |s| <= 24
    ensures IsValid(t) && t.year < 10_000 ==> |s| == 19
  {
    FieldLengths(t);
    ZeroPad(t.year, 4) + "-" + ZeroPad(t.month, 2) + "-" + ZeroPad(t.day, 2) + " "
      + ZeroPad(t.hour, 2) + ":" + ZeroPad(t.minute, 2) + ":" + ZeroPad(t.second, 2)
  }

  /** The padded fields of a valid date: two digits each, four to nine for the year. */
  lemma FieldLengths(t: DateTime)
    ensures IsValid(t) ==>
      && |ZeroPad(t.month, 2)| == 2 && |ZeroPad(t.day, 2)| == 2
      && |ZeroPad(t.hour, 2)| == 2 && |ZeroPad(t.minute, 2)| == 2 && |ZeroPad(t.second, 2)| == 2
      && 4 <= |ZeroPad(t.year, 4)| <= 9
      && (t.year < 10_000 ==> |ZeroPad(t.year, 4)| == 4)
  {
    if IsValid(t) {
      assert Pow10(2) == 100;
      DecimalLength(t.month, 2);
      DecimalLength(t.day, 2);
      DecimalLength(t.hour, 2);
      DecimalLength(t.minute, 2);
      DecimalLength(t.second, 2);
      assert Pow10(9) == YearBound;
      DecimalLength(t.year, 9);
      if t.year < 10_000 {
        assert Pow10(4) == 10_000;
        DecimalLength(t.year, 4);
      }
    }
  }

  /** A build started on 1 May 2013 at ten o'clock is shown as `2013-05-01 10:00:00`. */
  lemma FormatExample()
    ensures Format(DateTime(2013, 5, 1, 10, 0, 0)) == "2013-05-01 10:00:00"
  {
    YearExample();
    TwoDigitExamples();
  }

  /** Fields below ten get one leading zero. */
  lemma TwoDigitExamples()
    ensures ZeroPad(5, 2) == "05" && ZeroPad(1, 2) == "01"
    ensures ZeroPad(10, 2) == "10" && ZeroPad(0, 2) == "00"
  {
    assert Decimal(10) == "10";
  }

  /** A four-digit year is written as it is. */
  lemma YearExample()
    ensures ZeroPad(2013, 4) == "2013"
  {
    assert Decimal(20) == "20";
    assert Decimal(201) == "201";
    assert Decimal(2013) == "2013";
  }
}
