/** The Lambda bot (`lambda_function.py`): every holding is priced at its
    latest close alone, a holding whose close is exactly zero is skipped, the
    rounded values and the cash are summed, and a two-line message with the
    total and the close date is posted to the webhook. */
module Lambda {
  import opened Wrappers
  import opened Numerals
  import opened Rounding
  import opened Money
  import opened Dates
  import opened Lines
  import opened Portfolio

  /** The lookup `get_eod_adj_close_price`: record 0 of the list, newest first.
      A failed fetch or an empty list raises. */
  function LatestClose(feed: EodFeed, ticker: string): (r: Result<EodRecord, Error>)
    ensures r.Success? <==> feed(ticker).Some? && |feed(ticker).value| >= 1
    ensures feed(ticker).None? ==> r == Failure(FeedFailed(ticker))
    ensures feed(ticker).Some? && |feed(ticker).value| == 0 ==> r == Failure(MissingRecord(ticker, 0))
    ensures r.Success? ==> r.value == feed(ticker).value[0]
  {
    match feed(ticker)
    case None => Failure(FeedFailed(ticker))
    case Some(records) =>
      if |records| == 0 then Failure(MissingRecord(ticker, 0)) else Success(records[0])
  }

  /** A holding's part of the total, and the close date it leaves in the
      date variable (none for cash, which is never looked up). */
  type Share = Dated<real>

  /** The value of a fetched holding: its close times its quantity, rounded to pence. */
  function RoundedValue(rec: EodRecord, quantity: real): (v: real)
    ensures OnGrid(v, 2)
    ensures rec.adjustedClose * quantity - 0.005 <= v <= rec.adjustedClose * quantity + 0.005
  {
    Round2(rec.adjustedClose * quantity)
  }

  /** A fetched holding's share: nothing when the close is exactly zero (the
      holding is skipped), its rounded value otherwise. The date is assigned
      before the zero test, so a skipped holding still sets it. */
  function Fetched(rec: EodRecord, quantity: real): (s: Share)
    ensures s.date == Some(rec.date)
    ensures rec.adjustedClose == 0.0 ==> s.amount == 0.0
    ensures rec.adjustedClose != 0.0 ==> s.amount == RoundedValue(rec, quantity)
  {
    Dated(if rec.adjustedClose == 0.0 then 0.0 else RoundedValue(rec, quantity), Some(rec.date))
  }

  /** One step of the loop: cash adds its quantity without a lookup; any other
      holding is looked up, or raises. */
  function LambdaShare(feed: EodFeed, h: Holding): (r: Result<Share, Error>)
    ensures h.ticker == Cash ==> r == Success(Dated(h.quantity, None))
    ensures h.ticker != Cash ==> (r.Success? <==> LatestClose(feed, h.ticker).Success?)
    ensures h.ticker != Cash && r.Failure? ==> r.error == LatestClose(feed, h.ticker).error
  {
    if h.ticker == Cash then Success(Dated(h.quantity, None))
    else
      var rec :- LatestClose(feed, h.ticker);
      Success(Fetched(rec, h.quantity))
  }

  /** Every holding's share, in order; the first failure ends the walk. */
  function ShareAll(feed: EodFeed, hs: seq<Holding>): Result<seq<Share>, Error>
    decreases |hs|
  {
    if |hs| == 0 then Success([])
    else
      var init :- ShareAll(feed, hs[..|hs| - 1]);
      var last :- LambdaShare(feed, hs[|hs| - 1]);
      Success(init + [last])
  }

  /** The total: the shares summed left to right. */
  function Total(ss: seq<Share>): real {
    if |ss| == 0 then 0.0 else Total(ss[..|ss| - 1]) + ss[|ss| - 1].amount
  }

  /** What `calculate_portfolio_value` returns: the total and the close date. */
  datatype Valuation = Valuation(total: real, date: string)

  /** The valuation as a whole: every holding's share summed, then the date,
      which raises when no holding was looked up. */
  function PortfolioValue(feed: EodFeed, hs: seq<Holding>): (r: Result<Valuation, Error>)
    ensures r.Success? <==> ShareAll(feed, hs).Success? && LastDate(ShareAll(feed, hs).value).Some?
    ensures r.Success? ==>
      && r.value.total == Total(ShareAll(feed, hs).value)
      && Some(r.value.date) == LastDate(ShareAll(feed, hs).value)
    ensures ShareAll(feed, hs).Failure? ==> r == Failure(ShareAll(feed, hs).error)
    ensures ShareAll(feed, hs).Success? && LastDate(ShareAll(feed, hs).value).None? ==> r == Failure(UnboundDate)
  {
    var ss :- ShareAll(feed, hs);
    match LastDate(ss)
    case None => Failure(UnboundDate)
    case Some(date) => Success(Valuation(Total(ss), date))
  }

  /** The loop of `calculate_portfolio_value`, statement by statement, with its `continue`. */
  method CalculatePortfolioValue(feed: EodFeed, hs: seq<Holding>) returns (r: Result<Valuation, Error>)
    ensures r == PortfolioValue(feed, hs)
  {
    var total := 0.0;
    var date: Option<string> := None;
    for i := 0 to |hs|
      invariant ShareAll(feed, hs[..i]).Success?
      invariant total == Total(ShareAll(feed, hs[..i]).value)
      invariant date == LastDate(ShareAll(feed, hs[..i]).value)
    {
      var h := hs[i];
      if h.ticker == Cash {
        total := total + h.quantity;
        Step(feed, hs, i, Dated(h.quantity, None));
      } else {
        var fetched := LatestClose(feed, h.ticker);
        if fetched.Failure? {
          Stop(feed, hs, i);
          return Failure(fetched.error);
        }
        var rec := fetched.value;
        date := Some(rec.date);
        FetchedShare(feed, h);
        Step(feed, hs, i, Fetched(rec, h.quantity));
        if rec.adjustedClose == 0.0 {
          continue;
        }
        total := total + RoundedValue(rec, h.quantity);
      }
    }
    assert hs[..|hs|] == hs;
    if date.None? {
      return Failure(UnboundDate);
    }
    return Success(Valuation(total, date.value));
  }

  /** One holding further: the walk over `hs[..i + 1]` extends the walk over `hs[..i]`. */
  lemma {:induction false} Advance(feed: EodFeed, hs: seq<Holding>, i: nat)
    requires i < |hs| && ShareAll(feed, hs[..i]).Success?
    ensures LambdaShare(feed, hs[i]).Failure? ==>
      ShareAll(feed, hs[..i + 1]) == Failure(LambdaShare(feed, hs[i]).error)
    ensures LambdaShare(feed, hs[i]).Success? ==>
      ShareAll(feed, hs[..i + 1]) == Success(ShareAll(feed, hs[..i]).value + [LambdaShare(feed, hs[i]).value])
  {
    assert hs[..i + 1][..i] == hs[..i];
  }

  /** A holding whose lookup succeeds contributes its fetched share. */
  lemma {:induction false} FetchedShare(feed: EodFeed, h: Holding)
    requires h.ticker != Cash && LatestClose(feed, h.ticker).Success?
    ensures LambdaShare(feed, h) == Success(Fetched(LatestClose(feed, h.ticker).value, h.quantity))
  {
  }

  /** The loop invariant carried over one holding whose share is `s`. */
  lemma {:induction false} Step(feed: EodFeed, hs: seq<Holding>, i: nat, s: Share)
    requires i < |hs| && ShareAll(feed, hs[..i]).Success? && LambdaShare(feed, hs[i]) == Success(s)
    ensures ShareAll(feed, hs[..i + 1]) == Success(ShareAll(feed, hs[..i]).value + [s])
    ensures Total(ShareAll(feed, hs[..i + 1]).value) == Total(ShareAll(feed, hs[..i]).value) + s.amount
    ensures LastDate(ShareAll(feed, hs[..i + 1]).value)
         == if s.date.Some? then s.date else LastDate(ShareAll(feed, hs[..i]).value)
  {
    Advance(feed, hs, i);
    Extended(ShareAll(feed, hs[..i]).value, s);
  }

  /** Once a prefix of the holdings fails, the whole walk fails with the same error. */
  lemma {:induction false} FailedPrefix(feed: EodFeed, hs: seq<Holding>, k: nat)
    requires k <= |hs| && ShareAll(feed, hs[..k]).Failure?
    ensures ShareAll(feed, hs) == ShareAll(feed, hs[..k])
    decreases |hs|
  {
    if k < |hs| {
      assert hs[..|hs| - 1][..k] == hs[..k];
      FailedPrefix(feed, hs[..|hs| - 1], k);
    } else {
      assert hs[..k] == hs;
    }
  }

  /** A holding whose lookup raises ends the whole valuation with that exception. */
  lemma {:induction false} Stop(feed: EodFeed, hs: seq<Holding>, i: nat)
    requires i < |hs| && ShareAll(feed, hs[..i]).Success? && hs[i].ticker != Cash
    requires LatestClose(feed, hs[i].ticker).Failure?
    ensures PortfolioValue(feed, hs) == Failure(LatestClose(feed, hs[i].ticker).error)
  {
    Advance(feed, hs, i);
    FailedPrefix(feed, hs, i + 1);
  }

  /** Appending one share adds its amount to the total and moves the date to it if it has one. */
  lemma {:induction false} Extended(ss: seq<Share>, s: Share)
    ensures Total(ss + [s]) == Total(ss) + s.amount
    ensures LastDate(ss + [s]) == if s.date.Some? then s.date else LastDate(ss)
  {
    assert (ss + [s])[..|ss|] == ss;
  }

  /** A holding appended to the list: the walk goes on with that holding's share. */
  lemma {:induction false} Appended(feed: EodFeed, hs: seq<Holding>, h: Holding)
    requires ShareAll(feed, hs).Success? && LambdaShare(feed, h).Success?
    ensures ShareAll(feed, hs + [h]) == Success(ShareAll(feed, hs).value + [LambdaShare(feed, h).value])
    ensures Total(ShareAll(feed, hs + [h]).value) == Total(ShareAll(feed, hs).value) + LambdaShare(feed, h).value.amount
    ensures LastDate(ShareAll(feed, hs + [h]).value)
         == if h.ticker == Cash then LastDate(ShareAll(feed, hs).value) else LambdaShare(feed, h).value.date
  {
    var all := hs + [h];
    assert all[..|hs|] == hs && all[..|hs| + 1] == all;
    Step(feed, all, |hs|, LambdaShare(feed, h).value);
  }

  /** A holding whose latest close is exactly zero is skipped: the total stays
      as it was, but the holding's close date becomes the date. */
  lemma {:induction false} ZeroCloseSkipped(feed: EodFeed, hs: seq<Holding>, h: Holding)
    requires h.ticker != Cash && ShareAll(feed, hs).Success?
    requires LatestClose(feed, h.ticker).Success? && LatestClose(feed, h.ticker).value.adjustedClose == 0.0
    ensures ShareAll(feed, hs + [h]).Success?
    ensures Total(ShareAll(feed, hs + [h]).value) == Total(ShareAll(feed, hs).value)
    ensures LastDate(ShareAll(feed, hs + [h]).value) == Some(LatestClose(feed, h.ticker).value.date)
  {
    FetchedShare(feed, h);
    Appended(feed, hs, h);
  }

  /** A holding with a non-zero close adds its close times its quantity, rounded
      to pence, and its close date becomes the date. */
  lemma {:induction false} PricedAddsRounded(feed: EodFeed, hs: seq<Holding>, h: Holding)
    requires h.ticker != Cash && ShareAll(feed, hs).Success?
    requires LatestClose(feed, h.ticker).Success? && LatestClose(feed, h.ticker).value.adjustedClose != 0.0
    ensures ShareAll(feed, hs + [h]).Success?
    ensures Total(ShareAll(feed, hs + [h]).value)
         == Total(ShareAll(feed, hs).value) + RoundedValue(LatestClose(feed, h.ticker).value, h.quantity)
    ensures LastDate(ShareAll(feed, hs + [h]).value) == Some(LatestClose(feed, h.ticker).value.date)
  {
    FetchedShare(feed, h);
    Appended(feed, hs, h);
  }

  /** Cash adds exactly its quantity, needs no lookup and leaves the date alone. */
  lemma {:induction false} CashAddsQuantity(feed: EodFeed, hs: seq<Holding>, h: Holding)
    requires h.ticker == Cash && ShareAll(feed, hs).Success?
    ensures ShareAll(feed, hs + [h]).Success?
    ensures Total(ShareAll(feed, hs + [h]).value) == Total(ShareAll(feed, hs).value) + h.quantity
    ensures LastDate(ShareAll(feed, hs + [h]).value) == LastDate(ShareAll(feed, hs).value)
  {
    Appended(feed, hs, h);
  }

  /** A walk that succeeds has one share per holding, each the holding's own. */
  lemma {:induction false} ShareAllPointwise(feed: EodFeed, hs: seq<Holding>)
    requires ShareAll(feed, hs).Success?
    ensures |ShareAll(feed, hs).value| == |hs|
    ensures forall i :: 0 <= i < |hs| ==> LambdaShare(feed, hs[i]) == Success(ShareAll(feed, hs).value[i])
    decreases |hs|
  {
    if |hs| > 0 {
      var init := hs[..|hs| - 1];
      ShareAllPointwise(feed, init);
      forall i | 0 <= i < |hs| - 1
        ensures LambdaShare(feed, hs[i]) == Success(ShareAll(feed, hs).value[i])
      {
        assert hs[i] == init[i];
      }
    }
  }

  /** What a holding adds to the total, read straight off the feed: cash its
      quantity, a fund whose latest close is zero nothing, any other fund its
      close times its quantity rounded to pence (and nothing for a failed
      lookup, which a walk that goes through never meets). */
  function Worth(feed: EodFeed, h: Holding): real {
    if h.ticker == Cash then h.quantity
    else
      match LatestClose(feed, h.ticker)
      case Failure(_) => 0.0
      case Success(rec) => if rec.adjustedClose == 0.0 then 0.0 else RoundedValue(rec, h.quantity)
  }

  /** The worth of every holding, summed. */
  function SumOfWorth(feed: EodFeed, hs: seq<Holding>): real
    decreases |hs|
  {
    if |hs| == 0 then 0.0 else SumOfWorth(feed, hs[..|hs| - 1]) + Worth(feed, hs[|hs| - 1])
  }

  /** The total is the cash plus the rounded values of the holdings with a
      non-zero close, each counted once; nothing else contributes. */
  lemma {:induction false} TotalIsSumOfWorth(feed: EodFeed, hs: seq<Holding>)
    requires ShareAll(feed, hs).Success?
    ensures Total(ShareAll(feed, hs).value) == SumOfWorth(feed, hs)
    decreases |hs|
  {
    if |hs| > 0 {
      var init, h := hs[..|hs| - 1], hs[|hs| - 1];
      assert init + [h] == hs;
      TotalIsSumOfWorth(feed, init);
      Appended(feed, init, h);
      if h.ticker != Cash {
        FetchedShare(feed, h);
      }
    }
  }

  /** A list of cash only is always walked through, and leaves no date. */
  lemma {:induction false} CashOnlyWalk(feed: EodFeed, hs: seq<Holding>)
    requires forall i :: 0 <= i < |hs| ==> hs[i].ticker == Cash
    ensures ShareAll(feed, hs).Success?
    ensures LastDate(ShareAll(feed, hs).value).None?
    decreases |hs|
  {
    if |hs| > 0 {
      var init := hs[..|hs| - 1];
      assert forall i :: 0 <= i < |init| ==> init[i] == hs[i];
      CashOnlyWalk(feed, init);
      Appended(feed, init, hs[|hs| - 1]);
      assert init + [hs[|hs| - 1]] == hs;
    }
  }

  /** A list of cash only never assigns the date, and returning it raises. */
  lemma {:induction false} CashOnlyLeavesDateUnbound(feed: EodFeed, hs: seq<Holding>)
    requires forall i :: 0 <= i < |hs| ==> hs[i].ticker == Cash
    ensures PortfolioValue(feed, hs) == Failure(UnboundDate)
  {
    CashOnlyWalk(feed, hs);
  }

  /** The reported date is the close date of the last holding that is not cash,
      whether or not that holding was skipped for a zero close. */
  lemma {:induction false} DateOfLastFetched(feed: EodFeed, hs: seq<Holding>)
    requires PortfolioValue(feed, hs).Success?
    ensures exists i :: (0 <= i < |hs| && hs[i].ticker != Cash
      && LatestClose(feed, hs[i].ticker).Success?
      && LatestClose(feed, hs[i].ticker).value.date == PortfolioValue(feed, hs).value.date
      && forall j :: i < j < |hs| ==> hs[j].ticker == Cash)
  {
    var ss := ShareAll(feed, hs).value;
    ShareAllPointwise(feed, hs);
    var i :| 0 <= i < |ss| && ss[i].date == LastDate(ss) && forall j :: i < j < |ss| ==> ss[j].date.None?;
    assert LambdaShare(feed, hs[i]) == Success(ss[i]);
    assert hs[i].ticker != Cash;
    FetchedShare(feed, hs[i]);
    forall j | i < j < |hs|
      ensures hs[j].ticker == Cash
    {
      assert LambdaShare(feed, hs[j]) == Success(ss[j]);
    }
  }

  /** Only record 0 is read: two feeds that agree on the latest record of every
      looked-up ticker (or fail alike) give the same valuation. */
  lemma {:induction false} OnlyLatestRecordRead(feed1: EodFeed, feed2: EodFeed, hs: seq<Holding>)
    requires forall i :: 0 <= i < |hs| && hs[i].ticker != Cash ==>
      LatestClose(feed1, hs[i].ticker) == LatestClose(feed2, hs[i].ticker)
    ensures ShareAll(feed1, hs) == ShareAll(feed2, hs)
    ensures PortfolioValue(feed1, hs) == PortfolioValue(feed2, hs)
    decreases |hs|
  {
    if |hs| > 0 {
      var init := hs[..|hs| - 1];
      assert forall i :: 0 <= i < |init| ==> init[i] == hs[i];
      OnlyLatestRecordRead(feed1, feed2, init);
      var h := hs[|hs| - 1];
      if h.ticker != Cash {
        assert LatestClose(feed1, h.ticker) == LatestClose(feed2, h.ticker);
      }
      assert LambdaShare(feed1, h) == LambdaShare(feed2, h);
    }
  }

  /** A worked case: ten units closing at 50, then a fund whose close is zero
      (dated the day before), then £100 cash: the total is £600, and the date
      is the skipped fund's. */
  lemma {:induction false} WorkedExample(feed: EodFeed)
    requires feed("X") == Some([EodRecord(50.0, "2024-03-15")])
    requires feed("Y") == Some([EodRecord(0.0, "2024-03-14")])
    ensures PortfolioValue(feed, [Holding("Fund", "X", 10.0), Holding("Gone", "Y", 5.0), Holding("Pound", Cash, 100.0)])
      == Success(Valuation(600.0, "2024-03-14"))
  {
    var x, y, cash := Holding("Fund", "X", 10.0), Holding("Gone", "Y", 5.0), Holding("Pound", Cash, 100.0);
    var hs := [x, y, cash];
    WorkedExampleFunds(feed);
    CashAddsQuantity(feed, [x, y], cash);
    assert [x, y] + [cash] == hs;
    var ss := ShareAll(feed, hs).value;
    assert Total(ss) == 600.0;
    assert LastDate(ss) == Some("2024-03-14");
  }

  /** The two funds of the worked case: £500 for the first, nothing for the
      second, whose date is kept. */
  lemma {:induction false} WorkedExampleFunds(feed: EodFeed)
    requires feed("X") == Some([EodRecord(50.0, "2024-03-15")])
    requires feed("Y") == Some([EodRecord(0.0, "2024-03-14")])
    ensures ShareAll(feed, [Holding("Fund", "X", 10.0), Holding("Gone", "Y", 5.0)]).Success?
    ensures Total(ShareAll(feed, [Holding("Fund", "X", 10.0), Holding("Gone", "Y", 5.0)]).value) == 500.0
    ensures LastDate(ShareAll(feed, [Holding("Fund", "X", 10.0), Holding("Gone", "Y", 5.0)]).value)
         == Some("2024-03-14")
  {
    var x, y := Holding("Fund", "X", 10.0), Holding("Gone", "Y", 5.0);
    WorkedExampleFirst(feed);
    assert "Y" != Cash;
    assert LatestClose(feed, "Y") == Success(EodRecord(0.0, "2024-03-14"));
    ZeroCloseSkipped(feed, [x], y);
    assert [x] + [y] == [x, y];
  }

  /** The first fund of the worked case: ten units at 50 are £500. */
  lemma {:induction false} WorkedExampleFirst(feed: EodFeed)
    requires feed("X") == Some([EodRecord(50.0, "2024-03-15")])
    ensures ShareAll(feed, [Holding("Fund", "X", 10.0)]).Success?
    ensures Total(ShareAll(feed, [Holding("Fund", "X", 10.0)]).value) == 500.0
  {
    var x := Holding("Fund", "X", 10.0);
    assert "X" != Cash;
    assert LatestClose(feed, "X") == Success(EodRecord(50.0, "2024-03-15"));
    Round2Exact(50000);
    assert RoundedValue(EodRecord(50.0, "2024-03-15"), 10.0) == 500.0;
    assert ShareAll(feed, []) == Success([]);
    PricedAddsRounded(feed, [], x);
    assert [] + [x] == [x];
  }

  const TotalCaption: string := "Total Value: "
  const CloseCaption: string := "Last Close: "

  /** The message of `lambda_handler`: the total with two decimals on the first
      line, the long date on the second, and no newline at the end. */
  function LambdaMessage(total: real, dateText: string): string {
    TotalCaption + FormatAmount(total, 2) + "\n" + CloseCaption + dateText
  }

  /** What a reader of the message gets back from it. */
  datatype Reading = Reading(total: real, date: Date)

  /** Reads a message: two lines, each after its caption, read with the reader of its format. */
  function ReadLambdaMessage(m: string): (r: Option<Reading>)
    ensures r.Some? ==> |Split(m, '\n')| == 2 && Valid(r.value.date)
  {
    var lines := Split(m, '\n');
    if |lines| != 2 then None
    else
      var amount :- Labelled(lines[0], TotalCaption);
      var dateText :- Labelled(lines[1], CloseCaption);
      var total :- ReadAmount(amount);
      var date :- ParseLongDate(dateText);
      Some(Reading(total, date))
  }

  /** The message loses nothing but the rounding of the total: it reads back
      as the total rounded to pence and the date. */
  lemma LambdaMessageRoundTrip(total: real, d: Date)
    requires Valid(d)
    ensures ReadLambdaMessage(LambdaMessage(total, LongDate(d))) == Some(Reading(Shown(total, 2), d))
  {
    assert ReadAmount(FormatAmount(total, 2)) == Some(Shown(total, 2)) by {
      ReadAmountRoundTrip(total, 2);
    }
    assert ParseLongDate(LongDate(d)) == Some(d) by {
      LongDateRoundTrip(d);
    }
    FormatAmountSingleLine(total, 2);
    LongDateSingleLine(d);
    ReadLines(FormatAmount(total, 2), LongDate(d));
  }

  /** Two values on one line each, put after their captions, are read back by their readers. */
  lemma ReadLines(amount: string, dateText: string)
    requires SingleLine(amount) && SingleLine(dateText)
    requires ReadAmount(amount).Some? && ParseLongDate(dateText).Some?
    ensures ReadLambdaMessage(TotalCaption + amount + "\n" + CloseCaption + dateText)
         == Some(Reading(ReadAmount(amount).value, ParseLongDate(dateText).value))
  {
    var first, second := TotalCaption + amount, CloseCaption + dateText;
    assert '\n' !in TotalCaption && '\n' !in CloseCaption;
    CaptionedSingleLine(TotalCaption, amount);
    CaptionedSingleLine(CloseCaption, dateText);
    assert TotalCaption + amount + "\n" + CloseCaption + dateText == first + "\n" + second;
    SplitAfterSeparator(first, '\n', second);
    SplitPlain(first, '\n');
    LabelledRoundTrip(TotalCaption, amount);
    LabelledRoundTrip(CloseCaption, dateText);
  }

  /** Everything the handler computes before sending: the valuation, the date
      formatting, then the message. Nothing here is caught: the first
      exception ends the invocation. */
  function LambdaReport(feed: EodFeed, hs: seq<Holding>): (r: Result<string, Error>)
    ensures r.Success? <==> PortfolioValue(feed, hs).Success? && FormatDate(PortfolioValue(feed, hs).value.date).Success?
    ensures PortfolioValue(feed, hs).Failure? ==> r == Failure(PortfolioValue(feed, hs).error)
  {
    var v :- PortfolioValue(feed, hs);
    var dateText :- FormatDate(v.date);
    Success(LambdaMessage(v.total, dateText))
  }

  /** A sent message shows the valuation: the total rounded to pence and the record's date. */
  lemma LambdaReportShowsValuation(feed: EodFeed, hs: seq<Holding>)
    requires PortfolioValue(feed, hs).Success? && ParseIsoDate(PortfolioValue(feed, hs).value.date).Some?
    ensures LambdaReport(feed, hs).Success?
    ensures ReadLambdaMessage(LambdaReport(feed, hs).value)
         == Some(Reading(Shown(PortfolioValue(feed, hs).value.total, 2), ParseIsoDate(PortfolioValue(feed, hs).value.date).value))
  {
    var v := PortfolioValue(feed, hs).value;
    var d := ParseIsoDate(v.date).value;
    assert LambdaReport(feed, hs) == Success(LambdaMessage(v.total, LongDate(d)));
    LambdaMessageRoundTrip(v.total, d);
  }

  /** `send_webhook_message`: the response status, or 500 when the POST raises. */
  function SendWebhook(post: string -> PostOutcome, message: string): (status: int)
    ensures post(message).Raised? ==> status == ErrorStatus
    ensures post(message).Responded? ==> status == post(message).status
    ensures status != ErrorStatus ==> post(message) == Responded(status)
  {
    match post(message)
    case Raised => ErrorStatus
    case Responded(status) => status
  }

  /** An invocation that gets as far as sending: the message posted and the
      status `send_webhook_message` returned, which the handler drops. */
  datatype Invocation = Invocation(message: string, sendStatus: int)

  /** `lambda_handler`: the report, then the send. */
  function LambdaHandler(feed: EodFeed, hs: seq<Holding>, post: string -> PostOutcome): (r: Result<Invocation, Error>)
    ensures r.Failure? <==> LambdaReport(feed, hs).Failure?
  {
    var message :- LambdaReport(feed, hs);
    Success(Invocation(message, SendWebhook(post, message)))
  }

  /** The handler raises only before sending: its exceptions are those of the
      valuation and the date formatting, never of the POST, which is caught and
      turned into a 500 the handler then discards. */
  lemma HandlerRaisesBeforeSending(feed: EodFeed, hs: seq<Holding>, post: string -> PostOutcome)
    ensures LambdaHandler(feed, hs, post).Failure? ==>
      (PortfolioValue(feed, hs).Failure? && LambdaHandler(feed, hs, post).error == PortfolioValue(feed, hs).error)
      || LambdaHandler(feed, hs, post).error == BadDate(PortfolioValue(feed, hs).value.date)
    ensures LambdaHandler(feed, hs, post).Success? ==>
      LambdaHandler(feed, hs, post).value.message == LambdaReport(feed, hs).value
      && (post(LambdaReport(feed, hs).value).Raised? ==> LambdaHandler(feed, hs, post).value.sendStatus == ErrorStatus)
  {
  }
}
