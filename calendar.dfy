/** Calendar days as integers. A `Day` is the number of days since
    1970-01-01 in UTC, which is what `new Date("yyyy-mm-dd")` denotes at
    midnight; the local time zone is not modelled. */
module Calendar {
  import opened Wrappers
  import opened Text
  import opened Patterns

  type Day = int

  /** The day number of the proleptic Gregorian date y-m-d, for 1 <= m <= 12
      (the days-from-civil algorithm). A day beyond the end of the month
      rolls over into the next, as JavaScript's date arithmetic does. */
  function DaysFromCivil(y: int, m: int, d: int): Day
    requires 1 <= m <= 12
  {
    var y' := if m <= 2 then y - 1 else y;
    var era := y' / 400;
    var yoe := y' - era * 400;
    var mp := if m > 2 then m - 3 else m + 9;
    var doy := (153 * mp + 2) / 5 + d - 1;
    var doe := yoe * 365 + yoe / 4 - yoe / 100 + doy;
    era * 146097 + doe - 719468
  }

  /** `new Date(s)` for a string of the ISO date shape, as Node's engine
      reads it: the month must lie in 1..12 and the day in 1..31, and a day
      past the month's end rolls over. `None` is the invalid date (NaN). */
  function ParseIsoDay(s: string): (r: Option<Day>)
    ensures r.Some? ==> IsIsoDateString(s)
  {
    if !IsIsoDateString(s) then None
    else
      var y := DecimalValue(s[0..4]);
      var m := DecimalValue(s[5..7]);
      var d := DecimalValue(s[8..10]);
      if 1 <= m <= 12 && 1 <= d <= 31 then Some(DaysFromCivil(y, m, d)) else None
  }

  /** A JavaScript comparison with a NaN date is false, so an invalid date is
      never "before" anything: `new Date(s) < today`. */
  predicate IsBefore(s: string, today: Day) {
    match ParseIsoDay(s)
    case Some(d) => d < today
    case None => false
  }

  /** One entry of an availability list (`{date, available}`). The `date`
      text is `toISOString().split("T")[0]` of a UTC midnight, which names
      each day uniquely, so the entry holds the day it names. */
  datatype DateEntry = DateEntry(date: Day, available: bool)

  datatype Civil = Civil(year: int, month: int, day: int)

  /** The civil date of a day number (the civil-from-days algorithm). */
  function CivilFromDays(n: Day): (c: Civil)
    ensures 1 <= c.month <= 12 && 1 <= c.day <= 31
  {
    var z := n + 719468;
    var era := z / 146097;
    var doe := z - era * 146097;
    var yoe := (doe - doe / 1460 + doe / 36524 - doe / 146096) / 365;
    var doy := doe - (365 * yoe + yoe / 4 - yoe / 100);
    var mp := (5 * doy + 2) / 153;
    var d := doy - (153 * mp + 2) / 5 + 1;
    var m := if mp < 10 then mp + 3 else mp - 9;
    Civil(yoe + era * 400 + (if m <= 2 then 1 else 0), m, d)
  }

  /** The `yyyy` of `toISOString` for years 0..9999; other years use the
      six-digit extended form with a sign. */
  function YearText(y: int): string {
    if 0 <= y <= 9999 then PadStart(Decimal(y), 4, '0')
    else (if y < 0 then "-" else "+") + PadStart(Decimal(if y < 0 then -y else y), 6, '0')
  }

  /** `date.toISOString().split("T")[0]` for the midnight of day `n`. */
  function IsoOfDay(n: Day): string {
    var c := CivilFromDays(n);
    YearText(c.year) + "-" + PadStart(Decimal(c.month), 2, '0') + "-" + PadStart(Decimal(c.day), 2, '0')
  }

  /** A number below 10^width, padded with zeros to `width`, is `width` digits. */
  lemma PadDecimal(n: nat, width: nat)
    requires width >= 1 && n < Pow10(width)
    ensures |PadStart(Decimal(n), width, '0')| == width
    ensures AllDigits(PadStart(Decimal(n), width, '0'))
  {
    if n == 0 {
      assert |Decimal(n)| == 1;
    } else {
      var k := DigitCount(n, width);
      DecimalLength(n, k);
    }
  }

  /** The number of decimal digits of a positive number below 10^width. */
  lemma {:induction false} DigitCount(n: nat, width: nat) returns (k: nat)
    requires width >= 1 && 1 <= n < Pow10(width)
    ensures 1 <= k <= width && Pow10(k - 1) <= n < Pow10(k)
    decreases width
  {
    if width > 1 && n < Pow10(width - 1) {
      k := DigitCount(n, width - 1);
    } else {
      k := width;
    }
  }

  /** For the years 0..9999 the rendered day has the ISO date shape. */
  lemma IsoOfDayShape(n: Day)
    requires 0 <= CivilFromDays(n).year <= 9999
    ensures IsIsoDateString(IsoOfDay(n))
  {
    var c := CivilFromDays(n);
    assert Pow10(4) == 10000 && Pow10(2) == 100 by {
      assert Pow10(1) == 10 && Pow10(2) == 100 && Pow10(3) == 1000;
    }
    PadDecimal(c.year, 4);
    PadDecimal(c.month, 2);
    PadDecimal(c.day, 2);
    IsoFromParts(YearText(c.year), PadStart(Decimal(c.month), 2, '0'), PadStart(Decimal(c.day), 2, '0'));
  }
}
