/** Reading a published price out of page text: the scraped element's text
    is stripped of everything but digits and points (monitor/main.py line 31)
    and then converted by Python's `float`. */
module PriceText {
  import opened Wrappers
  import opened Numerals

  /** The characters the cleaning pattern `[^0-9.]` does not delete. */
  predicate Kept(c: char) {
    IsDigit(c) || c == '.'
  }

  predicate IsCleanText(s: string) {
    forall i :: 0 <= i < |s| ==> Kept(s[i])
  }

  /** `re.sub(r"[^0-9.]", "", s)`: every digit and point of `s`, in order. */
  function Clean(s: string): (r: string)
    ensures IsCleanText(r)
    ensures |r| <= |s|
    ensures IsCleanText(s) ==> r == s
  {
    if |s| == 0 then ""
    else
      var c := s[|s| - 1];
      Clean(s[..|s| - 1]) + (if Kept(c) then [c] else "")
  }

  /** A single character is kept as it is or deleted outright, never replaced.
      With CleanAppend this fixes the cleaning of every text. */
  lemma CleanChar(c: char)
    ensures Clean([c]) == if Kept(c) then [c] else ""
  {
    assert [c][..0] == "";
  }

  /** Cleaning works piecewise: the text can be cleaned in parts and the parts joined. */
  lemma {:induction false} CleanAppend(a: string, b: string)
    ensures Clean(a + b) == Clean(a) + Clean(b)
    decreases |b|
  {
    if |b| == 0 {
      assert a + b == a;
    } else {
      var ab, c := a + b, b[|b| - 1];
      var kept := if Kept(c) then [c] else "";
      assert ab[..|ab| - 1] == a + b[..|b| - 1];
      assert ab[|ab| - 1] == c;
      assert Clean(ab) == Clean(a + b[..|b| - 1]) + kept;
      assert Clean(b) == Clean(b[..|b| - 1]) + kept;
      CleanAppend(a, b[..|b| - 1]);
    }
  }

  /** Cleaning a second time changes nothing. */
  lemma CleanIdempotent(s: string)
    ensures Clean(Clean(s)) == Clean(s)
  {
  }

  /** Number of occurrences of `c` in `s`. */
  function Count(s: string, c: char): (n: nat)
    ensures n <= |s|
    ensures n == 0 <==> c !in s
  {
    if |s| == 0 then 0
    else Count(s[..|s| - 1], c) + (if s[|s| - 1] == c then 1 else 0)
  }

  lemma {:induction false} CountAppend(a: string, b: string, c: char)
    ensures Count(a + b, c) == Count(a, c) + Count(b, c)
    decreases |b|
  {
    if |b| == 0 {
      assert a + b == a;
    } else {
      var ab := a + b;
      assert ab[..|ab| - 1] == a + b[..|b| - 1];
      CountAppend(a, b[..|b| - 1], c);
    }
  }

  /** Splitting at the first occurrence of `c`: all other occurrences come after it. */
  lemma CountAtFirst(s: string, k: nat, c: char)
    requires k < |s| && s[k] == c && c !in s[..k]
    ensures Count(s, c) == 1 + Count(s[k + 1..], c)
  {
    assert s == s[..k] + [c] + s[k + 1..];
    CountAppend(s[..k] + [c], s[k + 1..], c);
    CountAppend(s[..k], [c], c);
    assert [c][..0] == [];
  }

  /** Position of the first `c` in `s`. */
  function IndexOf(s: string, c: char): (i: nat)
    requires c in s
    ensures i < |s| && s[i] == c && c !in s[..i]
  {
    if s[0] == c then 0
    else
      assert s == [s[0]] + s[1..];
      1 + IndexOf(s[1..], c)
  }

  /** The value of the decimal numeral `whole.frac`. */
  function DecimalValue(whole: string, frac: string): (v: real)
    requires IsDigits(whole) && IsDigits(frac)
    ensures v >= 0.0
  {
    ValueOf(whole) as real + ValueOf(frac) as real / Pow10(|frac|) as real
  }

  /** Python's `float` on a string of digits and points: it accepts exactly
      the texts with at most one point and at least one digit, and reads
      them as a decimal numeral ("12." and ".5" included). */
  function ParseDecimal(s: string): (r: Option<real>)
    requires IsCleanText(s)
    ensures r.Some? <==> Count(s, '.') <= 1 && Count(s, '.') < |s|
    ensures r.Some? ==> r.value >= 0.0
  {
    if '.' !in s then
      if |s| == 0 then None else Some(ValueOf(s) as real)
    else
      var k := IndexOf(s, '.');
      var whole := s[..k];
      var frac := s[k + 1..];
      CountAtFirst(s, k, '.');
      if '.' in frac || |whole| + |frac| == 0 then None
      else Some(DecimalValue(whole, frac))
  }

  /** The currency sign and the thousands separator are deleted. */
  lemma CleanSeparatorsExample()
    ensures Clean("£1,") == "1"
  {
    assert "£"[..0] == "" && ","[..0] == "";
    assert IsCleanText("1");
    CleanAppend("£", "1");
    assert "£" + "1" == "£1";
    CleanAppend("£1", ",");
    assert "£1" + "," == "£1,";
  }

  /** The scraped text "£1,234.56" cleans to "1234.56". */
  lemma CleanExample()
    ensures Clean("£1,234.56") == "1234.56"
  {
    CleanSeparatorsExample();
    assert IsCleanText("234.56");
    CleanAppend("£1,", "234.56");
    assert "£1," + "234.56" == "£1,234.56";
  }

  /** ... and `float` reads that as 1234.56. */
  lemma ParseExample()
    ensures ParseDecimal("1234.56") == Some(1234.56)
  {
    var s := "1234.56";
    PointExample();
    assert s[..4] == "1234" && s[5..] == "56";
    assert '.' !in "56";
    WholeExample();
    FractionExample();
    assert DecimalValue("1234", "56") == 1234.56;
  }

  lemma PointExample()
    ensures '.' in "1234.56" && IndexOf("1234.56", '.') == 4
  {
    var s := "1234.56";
    assert s[4] == '.';
    assert s[1..] == "234.56" && s[1..][1..] == "34.56" && s[1..][1..][1..] == "4.56";
    assert s[1..][1..][1..][1..] == ".56";
  }

  lemma WholeExample()
    ensures ValueOf("1234") == 1234
  {
    assert "1234"[..3] == "123";
    assert "123"[..2] == "12";
    assert "12"[..1] == "1";
    assert "1"[..0] == "";
  }

  lemma FractionExample()
    ensures ValueOf("56") == 56 && Pow10(2) == 100
  {
    assert "56"[..1] == "5";
    assert "5"[..0] == "";
  }
}
