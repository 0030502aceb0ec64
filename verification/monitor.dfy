/** The monitor bot's `main`: value the Vanguard holdings, format their date,
    value the AJ Bell funds, compose the report, POST it to the webhook and
    answer with the response status, or with 500 for any exception on the way. */
module Monitor {
  import opened Wrappers
  import opened Rounding
  import opened Money
  import opened Dates
  import opened Lines
  import opened Captions
  import opened Layout
  import opened Portfolio
  import opened Vanguard
  import opened AjBell

  /** The values `main` puts into the report: the Vanguard total with two
      decimals, the signed percentage change, the long date, the AJ Bell total
      with three decimals, and the combined total with two. */
  function MonitorTexts(v: VanguardReport, dateText: string, aj: real, combined: real): Texts
    requires OnGrid(v.change, 2)
  {
    Texts(FormatAmount(v.total, 2), PercentText(v.change), dateText, FormatAmount(aj, 3), FormatAmount(combined, 2))
  }

  /** Every value but the date fits on one line. */
  lemma MonitorTextsSingleLine(v: VanguardReport, dateText: string, aj: real, combined: real)
    requires OnGrid(v.change, 2)
    ensures var t := MonitorTexts(v, dateText, aj, combined);
      SingleLine(t.total) && SingleLine(t.change) && SingleLine(t.ajBell) && SingleLine(t.combined)
  {
    FormatAmountSingleLine(v.total, 2);
    PercentTextSingleLine(v.change);
    FormatAmountSingleLine(aj, 3);
    FormatAmountSingleLine(combined, 2);
  }

  /** The report of `main`: five captioned lines, the combined total among them. */
  function MonitorMessage(v: VanguardReport, dateText: string, aj: real, combined: real): string
    requires OnGrid(v.change, 2)
  {
    Compose(MonitorTexts(v, dateText, aj, combined))
  }

  /** The combined total of `main`: the two unrounded totals added. */
  function CombinedTotal(v: VanguardReport, aj: real): real {
    v.total + aj
  }

  /** What a reader of the report gets back from it. */
  datatype Summary = Summary(vanguard: real, change: real, date: Date, ajBell: real, combined: real)

  /** What a report of valuation `v`, date `d` and AJ Bell total `aj` shows:
      both totals and their sum rounded as formatted, the change and the date. */
  function Shows(v: VanguardReport, d: Date, aj: real): Summary {
    Summary(Shown(v.total, 2), v.change, d, Shown(aj, 3), Shown(CombinedTotal(v, aj), 2))
  }

  /** Reads the five values, each with the reader of its format. */
  function ReadValues(t: Texts): (r: Option<Summary>)
    ensures r.Some? ==> Valid(r.value.date)
  {
    var total :- ReadAmount(t.total);
    var change :- ReadPercent(t.change);
    var day :- ParseLongDate(t.date);
    var ajBell :- ReadAmount(t.ajBell);
    var combined :- ReadAmount(t.combined);
    Some(Summary(total, change, day, ajBell, combined))
  }

  /** Reads a report: its layout, then its values. */
  function ReadMonitorMessage(m: string): (r: Option<Summary>)
    ensures r.Some? ==> ReadTexts(m).Some? && r == ReadValues(ReadTexts(m).value)
  {
    var t :- ReadTexts(m);
    ReadValues(t)
  }

  /** Each value reads back as the number it shows. */
  lemma ValuesRoundTrip(v: VanguardReport, d: Date, aj: real, combined: real)
    requires OnGrid(v.change, 2) && Valid(d)
    ensures ReadValues(MonitorTexts(v, LongDate(d), aj, combined))
         == Some(Summary(Shown(v.total, 2), v.change, d, Shown(aj, 3), Shown(combined, 2)))
  {
    var t := MonitorTexts(v, LongDate(d), aj, combined);
    ReadAmountRoundTrip(v.total, 2);
    assert ReadAmount(t.total) == Some(Shown(v.total, 2));
    ReadPercentRoundTrip(v.change);
    assert ReadPercent(t.change) == Some(v.change);
    LongDateRoundTrip(d);
    assert ParseLongDate(t.date) == Some(d);
    ReadAmountRoundTrip(aj, 3);
    assert ReadAmount(t.ajBell) == Some(Shown(aj, 3));
    ReadAmountRoundTrip(combined, 2);
    assert ReadAmount(t.combined) == Some(Shown(combined, 2));
  }

  /** The report loses nothing but the rounding of its amounts: it reads back
      as the three totals rounded as shown, the exact percentage change and the date. */
  lemma MonitorMessageRoundTrip(v: VanguardReport, d: Date, aj: real, combined: real)
    requires OnGrid(v.change, 2) && Valid(d)
    ensures ReadMonitorMessage(MonitorMessage(v, LongDate(d), aj, combined))
         == Some(Summary(Shown(v.total, 2), v.change, d, Shown(aj, 3), Shown(combined, 2)))
  {
    var t := MonitorTexts(v, LongDate(d), aj, combined);
    assert ReadTexts(MonitorMessage(v, LongDate(d), aj, combined)) == Some(t) by {
      LongDateSingleLine(d);
      MonitorTextsSingleLine(v, LongDate(d), aj, combined);
      ReadTextsRoundTrip(t);
    }
    assert ReadValues(t) == Some(Summary(Shown(v.total, 2), v.change, d, Shown(aj, 3), Shown(combined, 2))) by {
      ValuesRoundTrip(v, d, aj, combined);
    }
  }

  /** What `main` does between the valuations and the POST, given their
      outcomes: the Vanguard outcome, the date formatting, the AJ Bell outcome,
      then the message. The first exception ends it. */
  function Report(vanguard: Result<VanguardReport, Error>, ajBell: Result<real, Error>): (r: Result<string, Error>)
    requires vanguard.Success? ==> OnGrid(vanguard.value.change, 2)
    ensures r.Success? <==> vanguard.Success? && FormatDate(vanguard.value.date).Success? && ajBell.Success?
    ensures vanguard.Failure? ==> r == Failure(vanguard.error)
    ensures vanguard.Success? && FormatDate(vanguard.value.date).Failure? ==> r == Failure(BadDate(vanguard.value.date))
    ensures vanguard.Success? && FormatDate(vanguard.value.date).Success? && ajBell.Failure? ==> r == Failure(ajBell.error)
  {
    var v :- vanguard;
    var dateText :- FormatDate(v.date);
    var aj :- ajBell;
    Success(MonitorMessage(v, dateText, aj, CombinedTotal(v, aj)))
  }

  /** A report that was composed shows both valuations and their sum: read
      back, it gives the Vanguard total, the AJ Bell total and their sum (each
      rounded as shown), the percentage change and the record's date. */
  lemma ReportShowsValuations(vanguard: Result<VanguardReport, Error>, ajBell: Result<real, Error>)
    requires vanguard.Success? && OnGrid(vanguard.value.change, 2)
    requires ParseIsoDate(vanguard.value.date).Some? && ajBell.Success?
    ensures Report(vanguard, ajBell).Success?
    ensures ReadMonitorMessage(Report(vanguard, ajBell).value)
         == Some(Shows(vanguard.value, ParseIsoDate(vanguard.value.date).value, ajBell.value))
  {
    ReportMessage(vanguard, ajBell);
    MonitorMessageRoundTrip(vanguard.value, ParseIsoDate(vanguard.value.date).value, ajBell.value, CombinedTotal(vanguard.value, ajBell.value));
  }

  /** A composed report is the message of the two valuations and the long form of the record's date. */
  lemma ReportMessage(vanguard: Result<VanguardReport, Error>, ajBell: Result<real, Error>)
    requires vanguard.Success? && OnGrid(vanguard.value.change, 2)
    requires ParseIsoDate(vanguard.value.date).Some? && ajBell.Success?
    ensures Report(vanguard, ajBell)
         == Success(MonitorMessage(vanguard.value, LongDate(ParseIsoDate(vanguard.value.date).value), ajBell.value,
                                   CombinedTotal(vanguard.value, ajBell.value)))
  {
    var v := vanguard.value;
    assert FormatDate(v.date) == Success(LongDate(ParseIsoDate(v.date).value));
  }

  /** The report of a run: the Vanguard valuation, then the AJ Bell valuation. */
  function MonitorReport(feed: EodFeed, holdings: seq<Holding>, scrape: Scraper, funds: seq<Fund>)
    : (r: Result<string, Error>)
    ensures r.Success? <==>
      && VanguardValuation(feed, holdings).Success?
      && FormatDate(VanguardValuation(feed, holdings).value.date).Success?
      && AjBellValuation(scrape, funds).Success?
  {
    Report(VanguardValuation(feed, holdings), AjBellValuation(scrape, funds))
  }

  /** The answer to a report: the webhook's response status once it is sent,
      and 500 when the report failed or the POST raised. */
  function Status(report: Result<string, Error>, post: string -> PostOutcome): (status: int)
    ensures report.Failure? ==> status == ErrorStatus
    ensures report.Success? && post(report.value).Raised? ==> status == ErrorStatus
    ensures status != ErrorStatus ==> report.Success? && post(report.value) == Responded(status)
  {
    match report
    case Failure(_) => ErrorStatus
    case Success(message) =>
      match post(message)
      case Raised => ErrorStatus
      case Responded(status) => status
  }

  /** `main`'s answer: the webhook's status, or 500 for an exception anywhere,
      in the valuations, the date, or the POST. */
  function MonitorStatus(feed: EodFeed, holdings: seq<Holding>, scrape: Scraper, funds: seq<Fund>,
                         post: string -> PostOutcome): (status: int)
    ensures MonitorReport(feed, holdings, scrape, funds).Failure? ==> status == ErrorStatus
  {
    Status(MonitorReport(feed, holdings, scrape, funds), post)
  }

  /** A delivered report's status is whatever the webhook answered, 500 included:
      a status other than 500 means the run went through and was delivered. */
  lemma DeliveredStatus(report: Result<string, Error>, post: string -> PostOutcome)
    requires report.Success? && post(report.value).Responded?
    ensures Status(report, post) == post(report.value).status
  {
  }

  /** `main` as written: the two loops run as methods, then the formatting and the POST. */
  method RunMonitor(feed: EodFeed, holdings: seq<Holding>, scrape: Scraper, funds: seq<Fund>,
                    post: string -> PostOutcome) returns (status: int)
    ensures status == MonitorStatus(feed, holdings, scrape, funds, post)
  {
    var vanguard := ValueVanguard(feed, holdings);
    if vanguard.Failure? {
      return ErrorStatus;
    }
    var v := vanguard.value;
    var dateText := FormatDate(v.date);
    if dateText.Failure? {
      return ErrorStatus;
    }
    var ajBell := ValueAjBell(scrape, funds);
    if ajBell.Failure? {
      return ErrorStatus;
    }
    var message := MonitorMessage(v, dateText.value, ajBell.value, CombinedTotal(v, ajBell.value));
    assert Report(vanguard, ajBell) == Success(message);
    var sent := post(message);
    if sent.Raised? {
      return ErrorStatus;
    }
    return sent.status;
  }
}
