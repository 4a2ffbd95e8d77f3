/** Calendar dates as Python's `datetime.date` and `calendar` treat them: the proleptic
    Gregorian calendar for years 1 to 9999, and `date.isoformat()`. */
module Dates {
  import opened Wrappers
  import opened Text

  datatype Date = Date(year: int, month: int, day: int)

  const MinYear := 1
  const MaxYear := 9999

  /** `calendar.isleap`: every fourth year, except centuries not divisible by 400. */
  predicate IsLeap(year: int)
  {
    year % 4 == 0 && (year % 100 != 0 || year % 400 == 0)
  }

  /** `calendar.monthlen`: the table of month lengths plus February's leap day. */
  function MonthLen(year: int, month: int): (n: int)
    requires 1 <= month <= 12
    ensures 28 <= n <= 31
    ensures n == 31 <==> month in {1, 3, 5, 7, 8, 10, 12}
    ensures n == 30 <==> month in {4, 6, 9, 11}
    ensures n == 29 <==> month == 2 && IsLeap(year)
    ensures n == 28 <==> month == 2 && !IsLeap(year)
  {
    [0, 31, 28, 31, 30, 31, 30, 31, 31, 30, 31, 30, 31][month]
      + if month == 2 && IsLeap(year) then 1 else 0
  }

  /** What the `datetime.date` constructor accepts. */
  predicate ValidDate(d: Date)
  {
    MinYear <= d.year <= MaxYear && 1 <= d.month <= 12 && 1 <= d.day <= MonthLen(d.year, d.month)
  }

  /** `date.isoformat()`: the year padded to four digits, month and day to two. The ISO
      form of a valid date is exactly ten characters, `YYYY-MM-DD`, and it determines the
      date. */
  function IsoFormat(d: Date): (s: string)
    ensures ValidDate(d) ==> |s| == 10 && s[4] == '-' && s[7] == '-'
    ensures ValidDate(d) ==> ParseInt(s[..4]) == Some(d.year)
    ensures ValidDate(d) ==> ParseInt(s[5..7]) == Some(d.month)
    ensures ValidDate(d) ==> ParseInt(s[8..]) == Some(d.day)
    ensures ValidDate(d) ==> AllDigits(s[..4]) && AllDigits(s[5..7]) && AllDigits(s[8..])
  {
    var y := FormatInt(d.year, 4);
    var m := FormatInt(d.month, 2);
    var dd := FormatInt(d.day, 2);
    if ValidDate(d) then
      assert Pow10(4) == 10000 && Pow10(2) == 100;
      FixedWidth(d.year, 4);
      FixedWidth(d.month, 2);
      FixedWidth(d.day, 2);
      IsoLayout(y, m, dd);
      y + "-" + m + "-" + dd
    else
      y + "-" + m + "-" + dd
  }

  /** A number with at most k digits is formatted to exactly k characters that read back
      as the number. */
  lemma FixedWidth(n: int, k: nat)
    requires 1 <= k && 0 <= n < Pow10(k)
    ensures |FormatInt(n, k)| == k && ParseInt(FormatInt(n, k)) == Some(n)
  {
    DigitsLength(n, k);
    FormatIntParses(n, k);
  }

  lemma IsoLayout(y: string, m: string, d: string)
    requires |y| == 4 && |m| == 2 && |d| == 2
    ensures var s := y + "-" + m + "-" + d;
      |s| == 10 && s[4] == '-' && s[7] == '-' && s[..4] == y && s[5..7] == m && s[8..] == d
  {
    var s := y + "-" + m + "-" + d;
    assert s[..4] == y;
    assert s[5..7] == m;
    assert s[8..] == d;
  }
}
