/** The closing date of a price record: read with
    `datetime.strptime(text, "%Y-%m-%d")` and shown with `strftime("%d %B %Y")`. */
module Dates {
  import opened Wrappers
  import opened Numerals
  import opened Lines

  datatype Date = Date(year: nat, month: nat, day: nat)

  predicate IsLeapYear(year: nat) {
    year % 4 == 0 && (year % 100 != 0 || year % 400 == 0)
  }

  function DaysInMonth(year: nat, month: nat): nat
    requires 1 <= month <= 12
  {
    if month == 2 then (if IsLeapYear(year) then 29 else 28)
    else if month in {4, 6, 9, 11} then 30
    else 31
  }

  /** A calendar date `datetime` can represent (years 1 to 9999). */
  predicate Valid(d: Date) {
    && 1 <= d.year <= 9999
    && 1 <= d.month <= 12
    && 1 <= d.day <= DaysInMonth(d.year, d.month)
  }

  /** The `YYYY-MM-DD` text of a date, as the price feed writes it. */
  function IsoText(d: Date): (s: string)
    requires Valid(d)
    ensures |s| == 10
  {
    Padded(d.year, 4) + "-" + Padded(d.month, 2) + "-" + Padded(d.day, 2)
  }

  /** `strptime(s, "%Y-%m-%d")` on the zero-padded form: a valid calendar date, or an error. */
  function ParseIsoDate(s: string): (r: Option<Date>)
    ensures r.Some? ==> Valid(r.value) && IsoText(r.value) == s
  {
    if |s| == 10 && s[4] == '-' && s[7] == '-' && IsDigits(s[..4]) && IsDigits(s[5..7]) && IsDigits(s[8..]) then
      var d := Date(ValueOf(s[..4]), ValueOf(s[5..7]), ValueOf(s[8..]));
      if Valid(d) then
        IsoTextOfFields(s, d);
        Some(d)
      else None
    else None
  }

  /** A text of the `YYYY-MM-DD` shape is the text of the date its fields spell. */
  lemma IsoTextOfFields(s: string, d: Date)
    requires |s| == 10 && s[4] == '-' && s[7] == '-' && IsDigits(s[..4]) && IsDigits(s[5..7]) && IsDigits(s[8..])
    requires d == Date(ValueOf(s[..4]), ValueOf(s[5..7]), ValueOf(s[8..])) && Valid(d)
    ensures IsoText(d) == s
  {
    IsoTextOfParts(s[..4], s[5..7], s[8..], d);
    FieldsJoin(s);
  }

  lemma IsoTextOfParts(year: string, month: string, day: string, d: Date)
    requires |year| == 4 && |month| == 2 && |day| == 2
    requires IsDigits(year) && IsDigits(month) && IsDigits(day)
    requires d == Date(ValueOf(year), ValueOf(month), ValueOf(day)) && Valid(d)
    ensures IsoText(d) == year + "-" + month + "-" + day
  {
    PaddedValueOf(year);
    PaddedValueOf(month);
    PaddedValueOf(day);
  }

  lemma FieldsJoin(s: string)
    requires |s| == 10 && s[4] == '-' && s[7] == '-'
    ensures s == s[..4] + "-" + s[5..7] + "-" + s[8..]
  {
  }

  /** Every valid date's text parses back to that date, so `ParseIsoDate` accepts exactly the texts `IsoText` writes. */
  lemma IsoRoundTrip(d: Date)
    requires Valid(d)
    ensures ParseIsoDate(IsoText(d)) == Some(d)
  {
    var s := IsoText(d);
    assert s[..4] == Padded(d.year, 4);
    assert s[5..7] == Padded(d.month, 2);
    assert s[8..] == Padded(d.day, 2);
  }

  const MonthNames: seq<string> := ["January", "February", "March", "April", "May", "June",
    "July", "August", "September", "October", "November", "December"]

  /** `%B` in the C locale. */
  function MonthName(month: nat): string
    requires 1 <= month <= 12
  {
    MonthNames[month - 1]
  }

  /** The month a full English month name stands for; 0 for any other text. */
  function MonthNumber(name: string): (month: nat)
    ensures month == 0 || (1 <= month <= 12 && MonthName(month) == name)
  {
    if name == "January" then 1 else if name == "February" then 2
    else if name == "March" then 3 else if name == "April" then 4
    else if name == "May" then 5 else if name == "June" then 6
    else if name == "July" then 7 else if name == "August" then 8
    else if name == "September" then 9 else if name == "October" then 10
    else if name == "November" then 11 else if name == "December" then 12
    else 0
  }

  /** No two months share a name. */
  lemma MonthNamesDistinct(month: nat)
    requires 1 <= month <= 12
    ensures MonthNumber(MonthName(month)) == month
  {
  }

  /** `strftime("%d %B %Y")`: two-digit day, month name, four-digit year. */
  function LongDate(d: Date): (s: string)
    requires Valid(d)
    ensures 11 <= |s| && s[2] == ' ' && s[|s| - 5] == ' '
  {
    Padded(d.day, 2) + " " + MonthName(d.month) + " " + Padded(d.year, 4)
  }

  /** No month name holds a line break. */
  lemma MonthNameSingleLine(month: nat)
    requires 1 <= month <= 12
    ensures '\n' !in MonthName(month)
  {
    var name := MonthName(month);
    if month <= 6 {
      if month == 1 { assert name == "January"; }
      else if month == 2 { assert name == "February"; }
      else if month == 3 { assert name == "March"; }
      else if month == 4 { assert name == "April"; }
      else if month == 5 { assert name == "May"; }
      else { assert name == "June"; }
    } else {
      if month == 7 { assert name == "July"; }
      else if month == 8 { assert name == "August"; }
      else if month == 9 { assert name == "September"; }
      else if month == 10 { assert name == "October"; }
      else if month == 11 { assert name == "November"; }
      else { assert name == "December"; }
    }
  }

  /** A long date fits on one line. */
  lemma LongDateSingleLine(d: Date)
    requires Valid(d)
    ensures SingleLine(LongDate(d))
  {
    var day, year := Padded(d.day, 2), Padded(d.year, 4);
    MonthNameSingleLine(d.month);
    assert IsDigits(day) && IsDigits(year);
    assert LongDate(d) == day + " " + MonthName(d.month) + " " + year;
    SingleLineNoBreak(LongDate(d));
  }

  /** Reads a `DD Month YYYY` text back into a date. */
  function ParseLongDate(s: string): Option<Date> {
    if |s| >= 11 && s[2] == ' ' && s[|s| - 5] == ' ' && IsDigits(s[..2]) && IsDigits(s[|s| - 4..]) then
      var d := Date(ValueOf(s[|s| - 4..]), MonthNumber(s[3..|s| - 5]), ValueOf(s[..2]));
      if Valid(d) then Some(d) else None
    else None
  }

  /** The long form loses nothing: it reads back as the date it shows. */
  lemma LongDateRoundTrip(d: Date)
    requires Valid(d)
    ensures ParseLongDate(LongDate(d)) == Some(d)
  {
    var day, name, year := Padded(d.day, 2), MonthName(d.month), Padded(d.year, 4);
    assert LongDate(d) == day + " " + name + " " + year;
    LongDateFields(day, name, year);
    MonthNamesDistinct(d.month);
    ParseLongDateFields(day, name, year);
    assert Date(ValueOf(year), MonthNumber(name), ValueOf(day)) == d;
  }

  /** `ParseLongDate` on a text made of two digits, a name and four digits reads those three fields. */
  lemma ParseLongDateFields(day: string, name: string, year: string)
    requires |day| == 2 && |name| >= 3 && |year| == 4 && IsDigits(day) && IsDigits(year)
    ensures var d := Date(ValueOf(year), MonthNumber(name), ValueOf(day));
      ParseLongDate(day + " " + name + " " + year) == if Valid(d) then Some(d) else None
  {
    LongDateFields(day, name, year);
  }

  /** Where `ParseLongDate` finds the three fields of a long date. */
  lemma LongDateFields(day: string, name: string, year: string)
    requires |day| == 2 && |name| >= 3 && |year| == 4
    ensures var s := day + " " + name + " " + year;
      && |s| >= 11 && s[2] == ' ' && s[|s| - 5] == ' '
      && s[..2] == day && s[3..|s| - 5] == name && s[|s| - 4..] == year
  {
    var s := day + " " + name + " " + year;
    assert s[..2] == day;
    assert s[3..|s| - 5] == name;
    assert s[|s| - 4..] == year;
  }
}
