/** The two renderings of the clock reading the prescription generator uses: the long date of the
    printed header (`strftime("%B %d, %Y")`) and the ISO timestamp of the JSON document
    (`isoformat()`). The reading itself is an input. */
module Dates {
  import opened Wrappers
  import opened Strings

  /** A clock reading as Python's `datetime` holds it. */
  datatype Instant = Instant(year: nat, month: nat, day: nat, hour: nat, minute: nat, second: nat, microsecond: nat)

  /** Gregorian leap years, as the `calendar` rules of `datetime` have them. */
  predicate IsLeapYear(year: nat) {
    year % 4 == 0 && (year % 100 != 0 || year % 400 == 0)
  }

  /** The number of days in a month of a year. */
  function DaysInMonth(year: nat, month: nat): (n: nat)
    requires 1 <= month <= 12
    ensures 28 <= n <= 31
  {
    if month == 2 then (if IsLeapYear(year) then 29 else 28)
    else if month == 4 || month == 6 || month == 9 || month == 11 then 30
    else 31
  }

  predicate ValidInstant(t: Instant) {
    1 <= t.year <= 9999 && 1 <= t.month <= 12 && 1 <= t.day <= DaysInMonth(t.year, t.month)
    && t.hour < 24 && t.minute < 60 && t.second < 60 && t.microsecond < 1000000
  }

  /** Every reading of the clock is in the ranges `datetime` allows. */
  type DateTime = t: Instant | ValidInstant(t) witness Instant(2000, 1, 1, 0, 0, 0, 0)

  function MonthName(m: nat): string
    requires 1 <= m <= 12
  {
    ["January", "February", "March", "April", "May", "June", "July", "August",
     "September", "October", "November", "December"][m - 1]
  }

  /** `n` in decimal, left-padded with zeros to `width` digits. */
  function Pad(n: nat, width: nat): (s: string)
    ensures |s| >= width && forall i :: 0 <= i < |s| ==> IsDigit(s[i])
  {
    var digits := NatToString(n);
    if |digits| < width then Repeat('0', width - |digits|) + digits else digits
  }

  /** `%B %d, %Y`: the month's name, the two-digit day and the year. */
  function LongDate(t: DateTime): (s: string)
    ensures '\n' !in s
  {
    MonthName(t.month) + " " + Pad(t.day, 2) + ", " + NatToString(t.year)
  }

  /** `isoformat()`: `YYYY-MM-DDTHH:MM:SS`, followed by `.ffffff` only when the microseconds are not zero. */
  function IsoFormat(t: DateTime): (s: string)
    ensures |s| == (if t.microsecond == 0 then 19 else 26)
  {
    IsoDate(t) + "T" + IsoTime(t) + IsoFraction(t)
  }

  function IsoDate(t: DateTime): (s: string)
    ensures |s| == 10
  {
    PadFits(t.year, 4);
    PadFits(t.month, 2);
    PadFits(t.day, 2);
    Pad(t.year, 4) + "-" + Pad(t.month, 2) + "-" + Pad(t.day, 2)
  }

  function IsoTime(t: DateTime): (s: string)
    ensures |s| == 8
  {
    PadFits(t.hour, 2);
    PadFits(t.minute, 2);
    PadFits(t.second, 2);
    Pad(t.hour, 2) + ":" + Pad(t.minute, 2) + ":" + Pad(t.second, 2)
  }

  function IsoFraction(t: DateTime): (s: string)
    ensures |s| == (if t.microsecond == 0 then 0 else 7)
  {
    PadFits(t.microsecond, 6);
    if t.microsecond == 0 then "" else "." + Pad(t.microsecond, 6)
  }

  function Pow10(k: nat): (p: nat)
    ensures p >= 1
  {
    if k == 0 then 1 else 10 * Pow10(k - 1)
  }

  /** A number below `10^width` has at most `width` digits, so padding gives exactly `width`. */
  lemma {:induction false} PadFits(n: nat, width: nat)
    requires 1 <= width && n < Pow10(width)
    ensures |Pad(n, width)| == width
  {
    NatToStringLength(n, width);
  }

  lemma {:induction false} NatToStringLength(n: nat, width: nat)
    requires 1 <= width && n < Pow10(width)
    ensures |NatToString(n)| <= width
    decreases n
  {
    if n >= 10 {
      assert width >= 1;
      assert Pow10(width) == 10 * Pow10(width - 1);
      assert n / 10 < Pow10(width - 1);
      NatToStringLength(n / 10, width - 1);
    }
  }

  /** The value of a field of digits, or 0 when the field holds anything else. */
  function Field(s: string): nat {
    if forall i :: 0 <= i < |s| ==> IsDigit(s[i]) then ParseNat(s) else 0
  }

  /** Reads an ISO timestamp back into its fields. */
  function ParseIso(s: string): Instant
    requires |s| >= 19
  {
    Instant(Field(s[0..4]), Field(s[5..7]), Field(s[8..10]), Field(s[11..13]), Field(s[14..16]), Field(s[17..19]),
      if |s| >= 26 then Field(s[20..26]) else 0)
  }

  /** Leading zeros do not change the value of a digit string. */
  lemma {:induction false} LeadingZeros(k: nat, s: string)
    requires forall i :: 0 <= i < |s| ==> IsDigit(s[i])
    ensures forall i :: 0 <= i < |Repeat('0', k) + s| ==> IsDigit((Repeat('0', k) + s)[i])
    ensures ParseNat(Repeat('0', k) + s) == ParseNat(s)
    decreases |s| + k
  {
    var z := Repeat('0', k);
    if |s| > 0 {
      var init := s[..|s| - 1];
      assert (z + s)[..|z + s| - 1] == z + init;
      LeadingZeros(k, init);
    } else if k > 0 {
      assert z + s == z;
      assert z[..k - 1] == Repeat('0', k - 1) + s;
      LeadingZeros(k - 1, s);
    } else {
      assert z + s == s;
    }
  }

  /** Padding keeps the value. */
  lemma PadValue(n: nat, width: nat)
    ensures Field(Pad(n, width)) == n
  {
    var digits := NatToString(n);
    ParseNatToString(n);
    if |digits| < width {
      LeadingZeros(width - |digits|, digits);
    }
  }

  /** Reading back an ISO timestamp gives the clock reading it was made from. */
  lemma IsoRoundTrip(t: DateTime)
    ensures ParseIso(IsoFormat(t)) == t
  {
    var date, time, fraction := IsoDate(t), IsoTime(t), IsoFraction(t);
    var s := IsoFormat(t);
    Fields(date, time, fraction, "T", "");
    assert s == date + "T" + time + "" + fraction;
    assert s[0..4] == date[0..4] && s[5..7] == date[5..7] && s[8..10] == date[8..10];
    assert s[11..13] == time[0..2] && s[14..16] == time[3..5] && s[17..19] == time[6..8];
    DateFields(t);
    TimeFields(t);
    if t.microsecond != 0 {
      assert s[20..26] == fraction[1..];
      PadFits(t.microsecond, 6);
      PadValue(t.microsecond, 6);
    }
  }

  /** The pieces of `x + sep1 + y + sep2 + z` sit at fixed offsets. */
  lemma Fields(x: string, y: string, z: string, sep1: string, sep2: string)
    ensures var s := x + sep1 + y + sep2 + z;
      && s[..|x|] == x
      && s[|x| + |sep1|..|x| + |sep1| + |y|] == y
      && s[|x| + |sep1| + |y| + |sep2|..] == z
  {
  }

  lemma DateFields(t: DateTime)
    ensures var d := IsoDate(t); Field(d[0..4]) == t.year && Field(d[5..7]) == t.month && Field(d[8..10]) == t.day
  {
    PadFits(t.year, 4);
    PadFits(t.month, 2);
    PadFits(t.day, 2);
    Fields(Pad(t.year, 4), Pad(t.month, 2), Pad(t.day, 2), "-", "-");
    assert IsoDate(t)[8..10] == IsoDate(t)[8..];
    PadValue(t.year, 4);
    PadValue(t.month, 2);
    PadValue(t.day, 2);
  }

  lemma TimeFields(t: DateTime)
    ensures var d := IsoTime(t); Field(d[0..2]) == t.hour && Field(d[3..5]) == t.minute && Field(d[6..8]) == t.second
  {
    PadFits(t.hour, 2);
    PadFits(t.minute, 2);
    PadFits(t.second, 2);
    Fields(Pad(t.hour, 2), Pad(t.minute, 2), Pad(t.second, 2), ":", ":");
    assert IsoTime(t)[6..8] == IsoTime(t)[6..];
    PadValue(t.hour, 2);
    PadValue(t.minute, 2);
    PadValue(t.second, 2);
  }

  // ---------------------------------------------------------------------------
  // reading the long date back

  /** The position of the first space, or the length when there is none. */
  function SpaceAt(s: string): (i: nat)
    ensures i <= |s|
  {
    if s == [] || s[0] == ' ' then 0 else 1 + SpaceAt(s[1..])
  }

  /** The number of the month with this English name, or 0 for any other text. */
  function MonthNumber(name: string): nat {
    if name == "January" then 1 else if name == "February" then 2 else if name == "March" then 3
    else if name == "April" then 4 else if name == "May" then 5 else if name == "June" then 6
    else if name == "July" then 7 else if name == "August" then 8 else if name == "September" then 9
    else if name == "October" then 10 else if name == "November" then 11 else if name == "December" then 12
    else 0
  }

  /** Reads a long date back as (month, day, year): the month's name up to the first space, the
      two digits after it, and the digits after the comma. */
  function ReadLongDate(s: string): Option<(nat, nat, nat)> {
    var i := SpaceAt(s);
    if i + 5 <= |s| && MonthNumber(s[..i]) != 0 && s[i + 3..i + 5] == ", " then
      Some((MonthNumber(s[..i]), Field(s[i + 1..i + 3]), Field(s[i + 5..])))
    else None
  }

  /** Reading back the long date gives the month, the day and the year it was made from. */
  lemma LongDateRoundTrip(t: DateTime)
    ensures ReadLongDate(LongDate(t)) == Some((t.month, t.day, t.year))
  {
    MonthNamed(t.month);
    PadFits(t.day, 2);
    PadValue(t.day, 2);
    ParseNatToString(t.year);
    LongDateFields(MonthName(t.month), Pad(t.day, 2), NatToString(t.year));
  }

  /** The three fields of `name + " " + day + ", " + year` are read back from their places. */
  lemma LongDateFields(name: string, day: string, year: string)
    requires ' ' !in name && MonthNumber(name) != 0 && |day| == 2
    ensures ReadLongDate(name + " " + day + ", " + year) == Some((MonthNumber(name), Field(day), Field(year)))
  {
    var rest := " " + day + ", " + year;
    var s := name + " " + day + ", " + year;
    assert s == name + rest;
    SpaceAfter(name, rest);
    assert s[..|name|] == name;
    assert s[|name| + 1..|name| + 3] == day;
    assert s[|name| + 3..|name| + 5] == ", ";
    assert s[|name| + 5..] == year;
  }

  /** Each month's name holds no space and reads back as the month's number. */
  lemma MonthNamed(m: nat)
    requires 1 <= m <= 12
    ensures ' ' !in MonthName(m) && MonthNumber(MonthName(m)) == m
  {
  }

  /** A space right after a space-free prefix is the first one. */
  lemma {:induction false} SpaceAfter(a: string, b: string)
    requires ' ' !in a && b != [] && b[0] == ' '
    ensures SpaceAt(a + b) == |a|
    decreases |a|
  {
    if a == [] {
      assert a + b == b;
    } else {
      assert (a + b)[1..] == a[1..] + b;
      SpaceAfter(a[1..], b);
    }
  }
}
