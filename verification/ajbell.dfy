/** The AJ Bell valuation of the monitor bot (`calculate_aj_bell_dodl_portfolio_value`):
    for every fund line the fund page is fetched again, its published price is
    read out of the page text, and the line's value replaces the running value.
    The result is therefore the value of the last line only. */
module AjBell {
  import opened Wrappers
  import opened Rounding
  import opened PriceText
  import opened Money
  import opened Portfolio

  /** One line of the AJ Bell configuration; only the quantity is read. */
  datatype Fund = Fund(name: string, quantity: real)

  /** The fund page seen from the bot: the text of the price element at the
      `call`-th fetch (counted from 0), or `None` when the request fails or the
      page has no such element. */
  type Scraper = nat -> Option<string>

  /** The price read at one fetch: everything but digits and points is deleted
      and `float` reads the rest. A price read this way is never negative. */
  function ScrapedPrice(scrape: Scraper, call: nat): (r: Result<real, Error>)
    ensures scrape(call).None? ==> r == Failure(ScrapeFailed(call))
    ensures scrape(call).Some? ==>
      (r.Success? <==> ParseDecimal(Clean(scrape(call).value)).Some?)
    ensures scrape(call).Some? && r.Failure? ==> r.error == BadPriceText(Clean(scrape(call).value))
    ensures r.Success? ==> scrape(call).Some? && Some(r.value) == ParseDecimal(Clean(scrape(call).value))
    ensures r.Success? ==> r.value >= 0.0
  {
    match scrape(call)
    case None => Failure(ScrapeFailed(call))
    case Some(text) =>
      var digits := Clean(text);
      match ParseDecimal(digits)
      case None => Failure(BadPriceText(digits))
      case Some(price) => Success(price)
  }

  /** The inner helper: the page's price times the quantity, rounded to pence. */
  function FundValue(scrape: Scraper, call: nat, quantity: real): (r: Result<real, Error>)
    ensures r.Success? <==> ScrapedPrice(scrape, call).Success?
    ensures r.Failure? ==> r.error == ScrapedPrice(scrape, call).error
    ensures r.Success? ==> PenceNear(r.value, quantity * ScrapedPrice(scrape, call).value)
  {
    ValueAtPrice(ScrapedPrice(scrape, call), quantity)
  }

  /** A price read, times the quantity and rounded to pence; a failed read stays failed. */
  function ValueAtPrice(price: Result<real, Error>, quantity: real): (r: Result<real, Error>)
    ensures r.Success? <==> price.Success?
    ensures r.Failure? ==> r.error == price.error
    ensures r.Success? ==> PenceNear(r.value, quantity * price.value)
  {
    if price.Failure? then Failure(price.error) else Success(Round2(quantity * price.value))
  }

  /** The loop as written: every line fetches the page (the first failure raises)
      and overwrites the running value, which starts at 0.0. */
  function AjBellValuation(scrape: Scraper, funds: seq<Fund>): (r: Result<real, Error>)
    ensures r.Success? <==> forall call :: 0 <= call < |funds| ==> ScrapedPrice(scrape, call).Success?
    ensures r.Success? && |funds| == 0 ==> r.value == 0.0
    ensures r.Success? && |funds| > 0 ==>
      FundValue(scrape, |funds| - 1, funds[|funds| - 1].quantity) == Success(r.value)
    decreases |funds|
  {
    if |funds| == 0 then Success(0.0)
    else
      var _ :- AjBellValuation(scrape, funds[..|funds| - 1]);
      FundValue(scrape, |funds| - 1, funds[|funds| - 1].quantity)
  }

  /** The loop of `calculate_aj_bell_dodl_portfolio_value`, statement by statement. */
  method ValueAjBell(scrape: Scraper, funds: seq<Fund>) returns (r: Result<real, Error>)
    ensures r == AjBellValuation(scrape, funds)
  {
    var total := 0.0;
    for i := 0 to |funds|
      invariant AjBellValuation(scrape, funds[..i]) == Success(total)
    {
      assert funds[..i + 1][..i] == funds[..i];
      var value := FundValue(scrape, i, funds[i].quantity);
      if value.Failure? {
        FailedPrefix(scrape, funds, i + 1);
        return Failure(value.error);
      }
      total := value.value;
    }
    assert funds[..|funds|] == funds;
    return Success(total);
  }

  /** Once the walk over a prefix fails, the whole valuation fails with the same error. */
  lemma {:induction false} FailedPrefix(scrape: Scraper, funds: seq<Fund>, k: nat)
    requires k <= |funds| && AjBellValuation(scrape, funds[..k]).Failure?
    ensures AjBellValuation(scrape, funds) == AjBellValuation(scrape, funds[..k])
    decreases |funds|
  {
    if k < |funds| {
      assert funds[..|funds| - 1][..k] == funds[..k];
      FailedPrefix(scrape, funds[..|funds| - 1], k);
    } else {
      assert funds[..k] == funds;
    }
  }

  /** Only the last line's quantity matters: two lists of the same length whose
      last lines hold the same quantity are valued alike, whatever comes before. */
  lemma {:induction false} OnlyLastLineCounts(scrape: Scraper, a: seq<Fund>, b: seq<Fund>)
    requires |a| == |b| && |a| > 0 && a[|a| - 1].quantity == b[|b| - 1].quantity
    ensures AjBellValuation(scrape, a) == AjBellValuation(scrape, b)
  {
    SameSuccess(scrape, a[..|a| - 1], b[..|b| - 1]);
  }

  /** Whether the walk succeeds, and with which error it fails, depends only on the number of lines. */
  lemma {:induction false} SameSuccess(scrape: Scraper, a: seq<Fund>, b: seq<Fund>)
    requires |a| == |b|
    ensures AjBellValuation(scrape, a).Success? <==> AjBellValuation(scrape, b).Success?
    ensures AjBellValuation(scrape, a).Failure? ==> AjBellValuation(scrape, a) == AjBellValuation(scrape, b)
    decreases |a|
  {
    if |a| > 0 {
      SameSuccess(scrape, a[..|a| - 1], b[..|b| - 1]);
    }
  }

  /** Several lines are not added up: two lines of one and two units at a page
      price of 10 are worth £20, the second line alone, and not £30. */
  lemma OverwriteExample(scrape: Scraper)
    requires scrape(0) == Some("10") && scrape(1) == Some("10")
    ensures AjBellValuation(scrape, [Fund("A", 1.0), Fund("A", 2.0)]) == Success(20.0)
  {
    var first, second := Fund("A", 1.0), Fund("A", 2.0);
    FirstLineExample(scrape);
    TenPounds(scrape, 1, 2.0);
    AppendLine(scrape, [first], second);
    assert [first] + [second] == [first, second];
    Round2Exact(2000);
  }

  /** The first line of the example alone goes through. */
  lemma FirstLineExample(scrape: Scraper)
    requires scrape(0) == Some("10")
    ensures AjBellValuation(scrape, [Fund("A", 1.0)]).Success?
  {
    var first := Fund("A", 1.0);
    TenPounds(scrape, 0, 1.0);
    AppendLine(scrape, [], first);
    assert [] + [first] == [first];
  }

  /** A line added after lines that all went through is the whole outcome: its value, or its failure. */
  lemma AppendLine(scrape: Scraper, funds: seq<Fund>, f: Fund)
    requires AjBellValuation(scrape, funds).Success?
    ensures AjBellValuation(scrape, funds + [f]) == FundValue(scrape, |funds|, f.quantity)
  {
    assert (funds + [f])[..|funds|] == funds;
  }

  /** A page showing "10" gives a price of 10. */
  lemma TenPounds(scrape: Scraper, call: nat, quantity: real)
    requires scrape(call) == Some("10")
    ensures FundValue(scrape, call, quantity) == Success(Round2(quantity * 10.0))
  {
    assert IsCleanText("10");
    assert ParseDecimal("10") == Some(10.0) by {
      assert "10"[..1] == "1" && "1"[..0] == "";
    }
  }

  /** A page that shows a price the way the report formats amounts (`£1,234.56`)
      is read back as that amount's magnitude, rounded to pence. */
  lemma ScrapedFormattedPrice(scrape: Scraper, call: nat, x: real)
    requires scrape(call) == Some(FormatAmount(x, 2))
    ensures ScrapedPrice(scrape, call) == Success(RoundTo(Abs(x), 2))
  {
    FormatAmountRoundTrip(x, 2);
  }
}
