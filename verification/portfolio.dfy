/** What both bots share: the holdings list, the end-of-day price feed,
    the failures a run can meet, and the webhook delivery. */
module Portfolio {
  import opened Wrappers
  import opened Dates

  /** One line of a portfolio configuration. */
  datatype Holding = Holding(name: string, ticker: string, quantity: real)

  /** The ticker that marks a cash balance: valued at its quantity, never priced. */
  const Cash: string := "cash"

  /** One element of the price API's JSON array: adjusted close and its `YYYY-MM-DD` date. */
  datatype EodRecord = EodRecord(adjustedClose: real, date: string)

  /** The end-of-day price API seen from the bot: for a ticker, the records
      newest first, or `None` when the request, the JSON decoding or the
      field lookups fail. */
  type EodFeed = string -> Option<seq<EodRecord>>

  /** What one line of a valuation loop leaves behind: its amount, and the close
      date it assigned to the loop's date variable (none for cash, which is never looked up). */
  datatype Dated<T> = Dated(amount: T, date: Option<string>)

  /** The date variable after a valuation loop: the date of the last line that assigned one, if any. */
  function LastDate<T>(xs: seq<Dated<T>>): (r: Option<string>)
    ensures r.None? <==> forall i :: 0 <= i < |xs| ==> xs[i].date.None?
    ensures r.Some? ==>
      exists i :: 0 <= i < |xs| && xs[i].date == r && forall j :: i < j < |xs| ==> xs[j].date.None?
  {
    if |xs| == 0 then None
    else if xs[|xs| - 1].date.Some? then xs[|xs| - 1].date
    else LastDate(xs[..|xs| - 1])
  }

  /** The exceptions that end a valuation. */
  datatype Error =
    | FeedFailed(ticker: string)                 // transport failure or a body that is not a list of records
    | MissingRecord(ticker: string, index: nat)  // `data[index]` past the end of the list
    | ZeroDivision                               // percentage change against a zero previous total
    | UnboundDate                                // the date variable was never assigned
    | BadDate(text: string)                      // `strptime` rejects the record's date
    | ScrapeFailed(call: nat)                    // the fund page or its price element could not be read
    | BadPriceText(text: string)                 // `float` rejects the cleaned price text

  /** What the webhook POST gives back: an HTTP response of any status, or an exception. */
  datatype PostOutcome = Responded(status: int) | Raised

  /** The status both bots report for an exception. */
  const ErrorStatus: int := 500

  /** Formats the record's date as `DD Month YYYY`, failing where `strptime` raises. */
  function FormatDate(text: string): (r: Result<string, Error>)
    ensures r.Success? <==> ParseIsoDate(text).Some?
    ensures r.Failure? ==> r.error == BadDate(text)
    ensures r.Success? ==> ParseLongDate(r.value) == ParseIsoDate(text)
  {
    match ParseIsoDate(text)
    case None => Failure(BadDate(text))
    case Some(d) =>
      LongDateRoundTrip(d);
      Success(LongDate(d))
  }
}
