/**
  Proleptic Gregorian calendar dates, as Python's `datetime` counts them, with
  the day successor that `+ timedelta(days=1)` computes and the
  `strftime("%Y-%m-%d")` rendering of a date.
 */
module CivilDate {
  import opened Text

  datatype Date = Date(year: int, month: int, day: int)

  predicate IsLeapYear(y: int) {
    y % 4 == 0 && (y % 100 != 0 || y % 400 == 0)
  }

  function DaysInMonth(y: int, m: int): int
    requires 1 <= m <= 12
  {
    if m == 2 then (if IsLeapYear(y) then 29 else 28)
    else if m == 4 || m == 6 || m == 9 || m == 11 then 30
    else 31
  }

  /** A calendar date from year 1 on (`datetime.MINYEAR`). */
  predicate Valid(d: Date) {
    1 <= d.year && 1 <= d.month <= 12 && 1 <= d.day <= DaysInMonth(d.year, d.month)
  }

  /** The day after `d`. */
  function NextDay(d: Date): (n: Date)
    requires Valid(d)
    ensures Valid(n)
  {
    if d.day < DaysInMonth(d.year, d.month) then Date(d.year, d.month, d.day + 1)
    else if d.month < 12 then Date(d.year, d.month + 1, 1)
    else Date(d.year + 1, 1, 1)
  }

  /** The day before `d`; 0001-01-01 has none. */
  function PrevDay(d: Date): (p: Date)
    requires Valid(d) && d != Date(1, 1, 1)
    ensures Valid(p)
  {
    if d.day > 1 then Date(d.year, d.month, d.day - 1)
    else if d.month > 1 then Date(d.year, d.month - 1, DaysInMonth(d.year, d.month - 1))
    else Date(d.year - 1, 12, 31)
  }

  /** The successor is undone by the predecessor and vice versa, so no two
      dates share a successor and every date but the first has one. */
  lemma NextPrevInverse(d: Date)
    requires Valid(d)
    ensures NextDay(d) != Date(1, 1, 1) && PrevDay(NextDay(d)) == d
    ensures d != Date(1, 1, 1) ==> NextDay(PrevDay(d)) == d
  {
  }

  // ---------------------------------------------------------------------
  // Rendering as text

  function DigitValue(c: char): int {
    if '0' <= c <= '9' then c as int - '0' as int else 0
  }

  /** The decimal digits of `n`, without leading zeros. */
  function Digits(n: nat): (s: string)
    ensures |s| >= 1
    ensures forall i :: 0 <= i < |s| ==> '0' <= s[i] <= '9'
  {
    if n < 10 then [DigitChar(n)] else Digits(n / 10) + [DigitChar(n % 10)]
  }

  /** The number a string of decimal digits denotes. */
  function Value(s: string): nat
    decreases |s|
  {
    if s == [] then 0 else Value(s[..|s| - 1]) * 10 + DigitValue(s[|s| - 1])
  }

  /** `n` in decimal, left-padded with zeros to `width` characters. */
  function Padded(n: nat, width: nat): (s: string)
    ensures |s| >= width
  {
    var ds := Digits(n);
    if |ds| >= width then ds else seq(width - |ds|, _ => '0') + ds
  }

  /** `strftime("%Y-%m-%d")` */
  function Iso(d: Date): string
    requires Valid(d)
  {
    Padded(d.year, 4) + "-" + Padded(d.month, 2) + "-" + Padded(d.day, 2)
  }

  /** Reads back a date written by `Iso`: the year is everything before the
      last six characters. */
  function ParseIso(s: string): Date
    requires |s| >= 6
  {
    Date(Value(s[..|s| - 6]), Value(s[|s| - 5..|s| - 3]), Value(s[|s| - 2..]))
  }

  lemma {:induction false} ValueOfDigits(n: nat)
    ensures Value(Digits(n)) == n
    decreases n
  {
    if n >= 10 {
      var ds := Digits(n);
      assert ds[..|ds| - 1] == Digits(n / 10);
      ValueOfDigits(n / 10);
    }
  }

  lemma {:induction false} DigitsLength(n: nat, k: nat, bound: nat)
    requires 1 <= k && bound == Pow10(k) && n < bound
    ensures |Digits(n)| <= k
    decreases k
  {
    if n >= 10 {
      assert k > 1;
      Pow10Step(k);
      DigitsLength(n / 10, k - 1, Pow10(k - 1));
    }
  }

  function Pow10(k: nat): nat {
    if k == 0 then 1 else 10 * Pow10(k - 1)
  }

  lemma Pow10Step(k: nat)
    requires k >= 1
    ensures Pow10(k) == 10 * Pow10(k - 1) && Pow10(k - 1) >= 1
  {
    if k > 1 {
      Pow10Step(k - 1);
    }
  }

  lemma {:induction false} ValueOfZeros(z: nat)
    ensures Value(seq(z, _ => '0')) == 0
    decreases z
  {
    if z > 0 {
      assert seq(z, _ => '0')[..z - 1] == seq(z - 1, _ => '0');
      ValueOfZeros(z - 1);
    }
  }

  /** Leading zeros do not change the value. */
  lemma {:induction false} ValueLeadingZeros(z: nat, s: string)
    ensures Value(seq(z, _ => '0') + s) == Value(s)
    decreases |s|
  {
    var zs: string := seq(z, _ => '0');
    if s == [] {
      assert zs + s == zs;
      ValueOfZeros(z);
    } else {
      assert (zs + s)[..|zs + s| - 1] == zs + s[..|s| - 1];
      ValueLeadingZeros(z, s[..|s| - 1]);
    }
  }

  lemma ValueOfPadded(n: nat, width: nat)
    ensures Value(Padded(n, width)) == n
  {
    ValueOfDigits(n);
    var ds := Digits(n);
    if |ds| < width {
      ValueLeadingZeros(width - |ds|, ds);
    }
  }

  /** Months and days are written with exactly two digits. */
  lemma PaddedTwo(n: nat)
    requires n < 100
    ensures |Padded(n, 2)| == 2
  {
    DigitsLength(n, 2, 100);
  }

  /** The three parts of `y-m-d` are found again by counting from the end. */
  lemma IsoSlices(y: string, m: string, dd: string)
    requires |m| == 2 && |dd| == 2
    ensures var s := y + "-" + m + "-" + dd;
      |s| >= 6 && s[..|s| - 6] == y && s[|s| - 5..|s| - 3] == m && s[|s| - 2..] == dd
  {
  }

  /** The rendering reads back as the same date. */
  lemma IsoRoundTrip(d: Date)
    requires Valid(d)
    ensures |Iso(d)| >= 10
    ensures ParseIso(Iso(d)) == d
  {
    PaddedTwo(d.month);
    PaddedTwo(d.day);
    IsoSlices(Padded(d.year, 4), Padded(d.month, 2), Padded(d.day, 2));
    ValueOfPadded(d.year, 4);
    ValueOfPadded(d.month, 2);
    ValueOfPadded(d.day, 2);
  }

  /** For four-digit years the rendering is `YYYY-MM-DD`: ten characters,
      dashes at positions 4 and 7, digits elsewhere. */
  lemma IsoShape(d: Date)
    requires Valid(d) && d.year <= 9999
    ensures |Iso(d)| == 10 && Iso(d)[4] == '-' && Iso(d)[7] == '-'
    ensures forall i :: 0 <= i < 10 && i != 4 && i != 7 ==> '0' <= Iso(d)[i] <= '9'
  {
    DigitsLength(d.year, 4, 10000);
    PaddedTwo(d.month);
    PaddedTwo(d.day);
    var y, m, dd := Padded(d.year, 4), Padded(d.month, 2), Padded(d.day, 2);
    assert |y| == 4;
    var s := Iso(d);
    assert s == y + "-" + m + "-" + dd;
    forall i | 0 <= i < 10 && i != 4 && i != 7
      ensures '0' <= s[i] <= '9'
    {
      if i < 4 {
        assert s[i] == y[i];
      } else if i < 7 {
        assert s[i] == m[i - 5];
      } else {
        assert s[i] == dd[i - 8];
      }
    }
  }
}
