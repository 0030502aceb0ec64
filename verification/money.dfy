/** The report's number formats: `f"£{x:,.2f}"` (and `,.3f`) for amounts,
    and the signed `repr` of a rounded percentage. */
module Money {
  import opened Wrappers
  import opened Numerals
  import opened Rounding
  import opened PriceText
  import opened Lines

  const Pound: char := '£'

  function Abs(x: real): (a: real)
    ensures a >= 0.0 && (a == x || a == -x)
  {
    if x < 0.0 then -x else x
  }

  /** The `,` format option: a comma between every three digits, counted from the right. */
  function Group(d: string): (g: string)
    requires IsDigits(d)
    ensures |d| >= 1 ==> |g| == |d| + (|d| - 1) / 3 && g[0] == d[0]
    ensures forall i :: 0 <= i < |g| ==> g[i] == ',' || IsDigit(g[i])
    decreases |d|
  {
    if |d| <= 3 then d else Group(d[..|d| - 3]) + "," + d[|d| - 3..]
  }

  /** The commas stand exactly at every fourth place counted from the right end. */
  lemma {:induction false} GroupCommas(d: string)
    requires IsDigits(d)
    ensures forall i :: 0 <= i < |Group(d)| ==> (Group(d)[i] == ',' <==> (|Group(d)| - i) % 4 == 0)
    decreases |d|
  {
    var g := Group(d);
    if |d| <= 3 {
      assert forall i :: 0 <= i < |g| ==> g[i] == d[i] && 1 <= |g| - i <= 3;
    } else {
      var head, tail := d[..|d| - 3], d[|d| - 3..];
      GroupCommas(head);
      assert g == Group(head) + "," + tail;
      assert ',' !in tail by {
        forall i | 0 <= i < |tail|
          ensures tail[i] != ','
        {
          assert tail[i] == d[|d| - 3 + i];
        }
      }
      CommaAfter(Group(head), tail);
    }
  }

  /** A comma and three more characters after a text whose commas stand at every
      fourth place from its end leave the commas at every fourth place from the new end. */
  lemma CommaAfter(init: string, tail: string)
    requires |tail| == 3 && ',' !in tail
    requires forall i :: 0 <= i < |init| ==> (init[i] == ',' <==> (|init| - i) % 4 == 0)
    ensures var g := init + "," + tail;
      forall i :: 0 <= i < |g| ==> (g[i] == ',' <==> (|g| - i) % 4 == 0)
  {
    var g := init + "," + tail;
    forall i | 0 <= i < |g|
      ensures g[i] == ',' <==> (|g| - i) % 4 == 0
    {
      if i < |init| {
        assert g[i] == init[i];
        var k := |init| - i;
        assert |g| - i == k + 4;
        assert (k + 4) % 4 == k % 4;
      } else if i > |init| {
        assert g[i] == tail[i - |init| - 1];
        assert 1 <= |g| - i <= 3;
      } else {
        assert g[i] == ',' && |g| - i == 4;
      }
    }
  }

  lemma CleanSeparator()
    ensures Clean(",") == ""
  {
    assert ","[..0] == "";
  }

  /** Deleting the separators gives back the digits that were grouped. */
  lemma {:induction false} CleanGroup(d: string)
    requires IsDigits(d)
    ensures Clean(Group(d)) == d
    decreases |d|
  {
    if |d| <= 3 {
      assert IsCleanText(d);
    } else {
      var head, tail := d[..|d| - 3], d[|d| - 3..];
      GroupStep(d);
      CleanGroup(head);
      CleanAroundSeparator(Group(head), tail);
      assert Clean(Group(d)) == head + tail;
      assert head + tail == d;
    }
  }

  /** Above three digits, grouping groups all but the last three, then a comma, then the last three. */
  lemma GroupStep(d: string)
    requires IsDigits(d) && |d| > 3
    ensures IsDigits(d[..|d| - 3]) && IsCleanText(d[|d| - 3..])
    ensures Group(d) == Group(d[..|d| - 3]) + "," + d[|d| - 3..]
  {
    var tail := d[|d| - 3..];
    forall i | 0 <= i < |tail|
      ensures Kept(tail[i])
    {
      assert tail[i] == d[|d| - 3 + i];
    }
  }

  /** Cleaning drops a separator between two parts and keeps clean text as it is. */
  lemma CleanAroundSeparator(a: string, b: string)
    requires IsCleanText(b)
    ensures Clean(a + "," + b) == Clean(a) + b
  {
    CleanAppend(a + ",", b);
    CleanAppend(a, ",");
    CleanSeparator();
  }

  /** The amount scaled to a whole number of 10^-places, rounded half to even: the digits the format shows. */
  function Scaled(x: real, places: nat): nat {
    RoundHalfEven(Abs(x) * Pow10(places) as real)
  }

  /** The whole part the format shows. */
  function WholeUnits(x: real, places: nat): nat {
    DivisionOfNat(Scaled(x, places), Pow10(places));
    Scaled(x, places) / Pow10(places)
  }

  /** Dividing a natural number by a positive one leaves a natural quotient and a remainder below the divisor. */
  lemma DivisionOfNat(n: nat, p: nat)
    requires p >= 1
    ensures n / p >= 0 && n % p < p
  {
  }

  /** The decimals the format shows, as a number below 10^places. */
  function FractionUnits(x: real, places: nat): (m: nat)
    ensures m < Pow10(places)
  {
    DivisionOfNat(Scaled(x, places), Pow10(places));
    Scaled(x, places) % Pow10(places)
  }

  /** The decimals shown after the whole part: none when `places` is 0. */
  function Decimals(m: nat, places: nat): (s: string)
    requires m < Pow10(places)
    ensures places == 0 ==> s == ""
    ensures places > 0 ==> |s| == places + 1 && s[0] == '.' && '.' !in s[1..]
    ensures IsCleanText(s)
  {
    if places == 0 then "" else "." + Padded(m, places)
  }

  /** The unsigned numeral: the grouped whole part `q`, then the decimals of `m`. */
  function Fixed(q: nat, m: nat, places: nat): (s: string)
    requires m < Pow10(places)
    ensures |s| >= 1 && IsDigit(s[0])
    ensures forall i :: 0 <= i < |s| ==> s[i] == ',' || Kept(s[i])
  {
    Group(Digits(q)) + Decimals(m, places)
  }

  /** `f"£{x:,.<places>f}"`: the pound sign, a minus for a negative amount,
      the grouped whole part, and `places` decimals of `|x|` rounded half to even. */
  function FormatAmount(x: real, places: nat): (s: string)
    ensures |s| >= 2 && s[0] == Pound
    ensures s[1] == '-' <==> x < 0.0
  {
    var sign := if x < 0.0 then "-" else "";
    [Pound] + sign + Fixed(WholeUnits(x, places), FractionUnits(x, places), places)
  }

  /** From index `start` on, `s` holds the whole part `whole`, then, when `places`
      is positive, a point and exactly `places` digits denoting `m`, and nothing else. */
  predicate AmountLaidOut(s: string, start: nat, whole: string, places: nat, m: nat) {
    && start + |whole| <= |s|
    && s[start..start + |whole|] == whole
    && (places == 0 ==> |s| == start + |whole|)
    && (places > 0 ==>
          && |s| == start + |whole| + 1 + places
          && s[start + |whole|] == '.'
          && IsDigits(s[start + |whole| + 1..])
          && ValueOf(s[start + |whole| + 1..]) == m)
  }

  /** The layout of `f"£{x:,.<places>f}"`: after the pound sign and the minus
      (when there is one) comes the comma-grouped whole part; then, when
      `places` is positive, a point and exactly `places` digits denoting the
      rounded decimals, and nothing more when `places` is 0. */
  lemma FormatAmountLayout(x: real, places: nat)
    ensures AmountLaidOut(FormatAmount(x, places), if x < 0.0 then 2 else 1,
                          Group(Digits(WholeUnits(x, places))), places, FractionUnits(x, places))
  {
    var sign := if x < 0.0 then "-" else "";
    FixedLayout(FormatAmount(x, places), [Pound] + sign, if x < 0.0 then 2 else 1,
                WholeUnits(x, places), FractionUnits(x, places), places);
  }

  /** A head followed by the numeral of `q` and `m` can be cut back apart:
      the grouped whole part, then the point and the decimals. */
  lemma FixedLayout(s: string, head: string, start: nat, q: nat, m: nat, places: nat)
    requires m < Pow10(places) && s == head + Fixed(q, m, places) && |head| == start
    ensures AmountLaidOut(s, start, Group(Digits(q)), places, m)
  {
    var whole, decimals := Group(Digits(q)), Decimals(m, places);
    assert s == head + whole + decimals;
    assert s[start..start + |whole|] == whole;
    assert s[start + |whole|..] == decimals;
    if places > 0 {
      assert s[start + |whole| + 1..] == decimals[1..] == Padded(m, places);
    }
  }

  /** The whole part of 1234.5 at two places is 1234 and its decimals are 50. */
  lemma ScaledExample(x: real)
    requires x == 1234.5
    ensures WholeUnits(x, 2) == 1234 && FractionUnits(x, 2) == 50
  {
    PowersExample();
    assert Abs(x) * 100.0 == 123450.0;
    NearestIsRounding(123450.0, 123450);
    assert Scaled(x, 2) == 123450;
  }

  lemma PowersExample()
    ensures Pow10(1) == 10 && Pow10(2) == 100
  {
    assert Pow10(1) == 10 * Pow10(0);
  }

  lemma DigitsExample(n: nat)
    requires n == 1234
    ensures Digits(n) == "1234"
  {
    assert Digits(1) == "1";
    assert Digits(12) == Digits(1) + "2";
    assert Digits(123) == Digits(12) + "3";
    assert Digits(n) == Digits(123) + "4";
  }

  lemma GroupExample(d: string)
    requires d == "1234"
    ensures Group(d) == "1,234"
  {
    assert d[..1] == "1" && d[1..] == "234";
    assert Group("1") == "1";
  }

  lemma DecimalsExample(m: nat)
    requires m == 50
    ensures Decimals(m, 2) == ".50"
  {
    PowersExample();
    var five := Padded(m / 10, 1);
    assert five == Padded(0, 0) + [DigitChar(5)];
    var p := Padded(m, 2);
    assert p == five + [DigitChar(0)];
    assert Decimals(m, 2) == "." + p;
  }

  /** `f"£{1234.5:,.2f}"` is "£1,234.50": a comma before the hundreds and two decimals. */
  lemma FormatAmountExample(x: real)
    requires x == 1234.5
    ensures FormatAmount(x, 2) == "£1,234.50"
  {
    ScaledExample(x);
    var q, m := WholeUnits(x, 2), FractionUnits(x, 2);
    DigitsExample(q);
    GroupExample(Digits(q));
    DecimalsExample(m);
    assert FormatAmount(x, 2) == [Pound] + "" + (Group(Digits(q)) + Decimals(m, 2));
    Joined(Group(Digits(q)), Decimals(m, 2));
  }

  lemma Joined(whole: string, decimals: string)
    requires whole == "1,234" && decimals == ".50"
    ensures [Pound] + "" + (whole + decimals) == "£1,234.50"
  {
  }

  /** An amount fits on one line. */
  lemma FormatAmountSingleLine(x: real, places: nat)
    ensures SingleLine(FormatAmount(x, places))
  {
    var sign := if x < 0.0 then "-" else "";
    var fixed := Fixed(WholeUnits(x, places), FractionUnits(x, places), places);
    SeparatedSingleLine(fixed);
    assert '\n' !in [Pound] + sign;
    assert FormatAmount(x, places) == [Pound] + sign + fixed;
    SingleLineNoBreak(FormatAmount(x, places));
  }

  lemma SeparatedSingleLine(s: string)
    requires forall i :: 0 <= i < |s| ==> s[i] == ',' || Kept(s[i])
    ensures '\n' !in s
  {
  }

  /** Whole part and remainder of a scaled integer recombine to its value. */
  lemma Recombine(n: nat, p: nat)
    requires p >= 1
    ensures (n / p) as real + (n % p) as real / p as real == n as real / p as real
  {
    var q, m := n / p, n % p;
    assert n == q * p + m;
    assert (q * p) as real == q as real * p as real;
    ScaleBack(q as real, p as real);
    assert q as real * p as real / p as real == q as real;
  }

  /** The whole part and the decimals the format shows are the rounded magnitude. */
  lemma UnitsValue(x: real, places: nat)
    ensures WholeUnits(x, places) as real + FractionUnits(x, places) as real / Pow10(places) as real
         == RoundTo(Abs(x), places)
  {
    ScaledIsRounding(x, places);
    UnitsSplit(Scaled(x, places), Pow10(places), WholeUnits(x, places), FractionUnits(x, places));
  }

  lemma ScaledIsRounding(x: real, places: nat)
    ensures RoundTo(Abs(x), places) == Scaled(x, places) as real / Pow10(places) as real
  {
  }

  lemma UnitsSplit(n: nat, p: nat, q: nat, m: nat)
    requires p >= 1 && q == n / p && m == n % p
    ensures q as real + m as real / p as real == n as real / p as real
  {
    Recombine(n, p);
  }

  /** The first point of `d + "." + f` is the one after the digits `d`. */
  lemma FirstPoint(d: string, f: string)
    requires IsDigits(d)
    ensures '.' in d + "." + f && IndexOf(d + "." + f, '.') == |d|
  {
    assert (d + "." + f)[|d|] == '.';
  }

  /** Cleaning deletes the separators and keeps the digits and the decimals. */
  lemma CleanFixed(q: nat, m: nat, places: nat)
    requires m < Pow10(places)
    ensures Clean(Fixed(q, m, places)) == Digits(q) + Decimals(m, places)
  {
    CleanAppend(Group(Digits(q)), Decimals(m, places));
    CleanGroup(Digits(q));
  }

  /** The pound sign and the minus are not kept. */
  lemma CleanSign(negative: bool)
    ensures Clean([Pound] + (if negative then "-" else "")) == ""
  {
    var sign := if negative then "-" else "";
    CleanAppend([Pound], sign);
    assert [Pound][..0] == [] && "-"[..0] == [];
  }

  /** Cleaning an amount deletes the pound sign and the minus as well. */
  lemma CleanFormatted(x: real, places: nat)
    ensures Clean(FormatAmount(x, places)) == Clean(Fixed(WholeUnits(x, places), FractionUnits(x, places), places))
  {
    var sign := if x < 0.0 then "-" else "";
    var fixed := Fixed(WholeUnits(x, places), FractionUnits(x, places), places);
    assert FormatAmount(x, places) == [Pound] + sign + fixed;
    CleanAppend([Pound] + sign, fixed);
    CleanSign(x < 0.0);
  }

  /** `float` on digits, a point and digits reads a whole part and a fraction. */
  lemma ParsePointed(d: string, f: string)
    requires IsDigits(d) && IsDigits(f) && |d| >= 1
    ensures IsCleanText(d + "." + f)
    ensures ParseDecimal(d + "." + f) == Some(DecimalValue(d, f))
  {
    var text := d + "." + f;
    assert IsCleanText(text) by {
      forall i | 0 <= i < |text|
        ensures Kept(text[i])
      {
        if i < |d| {
          assert text[i] == d[i];
        } else if i > |d| {
          assert text[i] == f[i - |d| - 1];
        }
      }
    }
    FirstPoint(d, f);
    assert text[..|d|] == d && text[|d| + 1..] == f;
    assert '.' !in f;
  }

  /** `float` reads the whole digits and the decimals back as `q` units and `m` 10^-places units. */
  lemma ParseFixed(q: nat, m: nat, places: nat)
    requires m < Pow10(places)
    ensures IsCleanText(Digits(q) + Decimals(m, places))
    ensures ParseDecimal(Digits(q) + Decimals(m, places)) == Some(q as real + m as real / Pow10(places) as real)
  {
    var digits := Digits(q);
    if places == 0 {
      assert m == 0 && Pow10(places) == 1;
      assert digits + Decimals(m, places) == digits;
      assert '.' !in digits;
    } else {
      var padded := Padded(m, places);
      assert digits + Decimals(m, places) == digits + "." + padded;
      ParsePointed(digits, padded);
    }
  }

  /** Reading a formatted amount back, as the monitor reads a scraped price
      (delete all but digits and points, then `float`), gives the rounded
      magnitude of the amount: nothing is lost but the rounding and the sign. */
  lemma FormatAmountRoundTrip(x: real, places: nat)
    ensures IsCleanText(Clean(FormatAmount(x, places)))
    ensures ParseDecimal(Clean(FormatAmount(x, places))) == Some(RoundTo(Abs(x), places))
  {
    var q, m := WholeUnits(x, places), FractionUnits(x, places);
    CleanFormatted(x, places);
    CleanFixed(q, m, places);
    ParseFixed(q, m, places);
    UnitsValue(x, places);
  }

  /** The rendering of the rounded percentage change: `+` for a value at or
      above zero, `-` below it, then Python's `repr` of the value (whole part,
      a point, and one decimal, or two when the second is not zero), then `%`. */
  function PercentText(pct: real): (s: string)
    requires OnGrid(pct, 2)
    ensures |s| >= 5 && s[|s| - 1] == '%'
    ensures s[0] == '+' <==> pct >= 0.0
    ensures s[0] == '-' <==> pct < 0.0
  {
    (if pct >= 0.0 then "+" else "-") + Repr(Hundredths(pct)) + "%"
  }

  /** A percentage fits on one line. */
  lemma PercentTextSingleLine(pct: real)
    requires OnGrid(pct, 2)
    ensures SingleLine(PercentText(pct))
  {
    var digits := Repr(Hundredths(pct));
    assert PercentText(pct) == (if pct >= 0.0 then "+" else "-") + digits + "%";
    assert '\n' !in digits;
    SingleLineNoBreak(PercentText(pct));
  }

  /** The magnitude of a percentage in whole hundredths. */
  function Hundredths(pct: real): nat {
    var k := RoundHalfEven(pct * 100.0);
    if k < 0 then -k else k
  }

  /** Python's `repr` of a non-negative multiple of 0.01 given in hundredths:
      whole part, point, then the decimals without a trailing zero (but at least one). */
  function Repr(hundredths: nat): (s: string)
    ensures |s| >= 3 && IsCleanText(s)
  {
    Digits(hundredths / 100) + "." + ReprDecimals(hundredths % 100)
  }

  /** The decimals `repr` shows for a number of cents: one digit when the second is zero, else two. */
  function ReprDecimals(cents: nat): (d: string)
    requires cents < 100
    ensures IsDigits(d) && 1 <= |d| <= 2
    ensures |d| == 1 <==> cents % 10 == 0
    ensures ValueOf(d) as real / Pow10(|d|) as real == cents as real / 100.0
  {
    if cents % 10 == 0 then
      var d := [DigitChar(cents / 10)];
      assert d[..0] == [];
      assert Pow10(1) == 10;
      d
    else
      assert Pow10(2) == 100;
      Padded(cents, 2)
  }

  /** `float` reads a `repr` back as the number of hundredths it was made from. */
  lemma ReprRoundTrip(hundredths: nat)
    ensures ParseDecimal(Repr(hundredths)) == Some(hundredths as real / 100.0)
  {
    var whole, cents := hundredths / 100, hundredths % 100;
    ParsePointed(Digits(whole), ReprDecimals(cents));
    assert DecimalValue(Digits(whole), ReprDecimals(cents)) == whole as real + cents as real / 100.0;
  }

  /** A percentage on the 0.01 grid is exactly its hundredths. */
  lemma HundredthsOnGrid(pct: real)
    requires OnGrid(pct, 2)
    ensures RoundHalfEven(pct * 100.0) as real == pct * 100.0
  {
    assert Pow10(2) as real == 100.0;
    var k := (pct * 100.0).Floor;
    assert k as real == pct * 100.0;
    NearestIsRounding(pct * 100.0, k);
  }

  /** The text between the sign and the `%` reads back as the magnitude of the percentage. */
  lemma PercentTextRoundTrip(pct: real)
    requires OnGrid(pct, 2)
    ensures IsCleanText(PercentText(pct)[1..|PercentText(pct)| - 1])
    ensures ParseDecimal(PercentText(pct)[1..|PercentText(pct)| - 1]) == Some(Abs(pct))
  {
    var s, body := PercentText(pct), Repr(Hundredths(pct));
    Enclosed(if pct >= 0.0 then "+" else "-", body, "%");
    assert s[1..|s| - 1] == body;
    ReprReadsMagnitude(pct);
  }

  /** The `repr` of a percentage's hundredths reads back as its magnitude. */
  lemma ReprReadsMagnitude(pct: real)
    requires OnGrid(pct, 2)
    ensures ParseDecimal(Repr(Hundredths(pct))) == Some(Abs(pct))
  {
    ReprRoundTrip(Hundredths(pct));
    HundredthsValue(pct);
  }

  /** On the 0.01 grid, the hundredths are the magnitude exactly. */
  lemma HundredthsValue(pct: real)
    requires OnGrid(pct, 2)
    ensures Hundredths(pct) as real / 100.0 == Abs(pct)
  {
    HundredthsOnGrid(pct);
  }

  /** The middle of a text made of a one-character prefix, a body and a one-character suffix. */
  lemma Enclosed(prefix: string, body: string, suffix: string)
    requires |prefix| == 1 && |suffix| == 1
    ensures (prefix + body + suffix)[1..|prefix + body + suffix| - 1] == body
  {
  }

  /** The value an amount text shows: its magnitude rounded to `places`
      decimals, with the sign of `x`. */
  function Shown(x: real, places: nat): (v: real)
    ensures Abs(v) == RoundTo(Abs(x), places)
    ensures v < 0.0 ==> x < 0.0
  {
    if x < 0.0 then -RoundTo(-x, places) else RoundTo(x, places)
  }

  /** Reads an amount text: the pound sign, a minus when negative, then the
      numeral with its separators, which cleaning deletes. */
  function ReadAmount(s: string): (r: Option<real>)
    ensures r.Some? ==> |s| >= 2 && s[0] == Pound
    ensures r.Some? && r.value < 0.0 ==> s[1] == '-'
  {
    if |s| >= 2 && s[0] == Pound then
      match ParseDecimal(Clean(s))
      case None => None
      case Some(v) => Some(if s[1] == '-' then -v else v)
    else None
  }

  /** An amount reads back as the value it shows, sign included. */
  lemma ReadAmountRoundTrip(x: real, places: nat)
    ensures ReadAmount(FormatAmount(x, places)) == Some(Shown(x, places))
  {
    FormatAmountRoundTrip(x, places);
  }

  /** Reads a percentage text: a sign, an unsigned decimal and `%`. */
  function ReadPercent(s: string): (r: Option<real>)
    ensures r.Some? ==> |s| >= 3 && s[|s| - 1] == '%'
    ensures r.Some? && r.value < 0.0 ==> s[0] == '-'
  {
    if |s| >= 3 && (s[0] == '+' || s[0] == '-') && s[|s| - 1] == '%' && IsCleanText(s[1..|s| - 1]) then
      match ParseDecimal(s[1..|s| - 1])
      case None => None
      case Some(v) => Some(if s[0] == '-' then -v else v)
    else None
  }

  /** The sign of a percentage, a numeral of its magnitude and `%` read as the percentage. */
  lemma ReadSigned(pct: real, body: string)
    requires IsCleanText(body) && ParseDecimal(body) == Some(Abs(pct))
    ensures ReadPercent([if pct >= 0.0 then '+' else '-'] + body + "%") == Some(pct)
  {
    var s := [if pct >= 0.0 then '+' else '-'] + body + "%";
    assert s[1..|s| - 1] == body;
  }

  /** A rounded percentage reads back exactly: the rendering loses nothing. */
  lemma ReadPercentRoundTrip(pct: real)
    requires OnGrid(pct, 2)
    ensures ReadPercent(PercentText(pct)) == Some(pct)
  {
    var body := Repr(Hundredths(pct));
    assert PercentText(pct) == [if pct >= 0.0 then '+' else '-'] + body + "%";
    ReprReadsMagnitude(pct);
    ReadSigned(pct, body);
  }
}
