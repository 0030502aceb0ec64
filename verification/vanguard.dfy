/** The Vanguard valuation of the monitor bot (`calculate_vanguard_portfolio_value`):
    every holding is priced at its latest two closes, the rounded values are
    summed into a current and a previous total, and the change between them
    is reported as a rounded percentage. Any failure ends the valuation. */
module Vanguard {
  import opened Wrappers
  import opened Numerals
  import opened Rounding
  import opened Portfolio

  /** What the price lookup gives for one ticker: the newest close, its date, and the close before it. */
  datatype Quote = Quote(current: real, date: string, previous: real)

  /** The lookup: record 0 gives the current close and its date, record 1 the previous close.
      A failed fetch or a list shorter than two records raises. */
  function EodQuote(feed: EodFeed, ticker: string): (r: Result<Quote, Error>)
    ensures r.Success? <==> feed(ticker).Some? && |feed(ticker).value| >= 2
    ensures feed(ticker).None? ==> r == Failure(FeedFailed(ticker))
    ensures feed(ticker).Some? && |feed(ticker).value| < 2 ==> r == Failure(MissingRecord(ticker, |feed(ticker).value|))
    ensures r.Success? ==>
      var records := feed(ticker).value;
      r.value == Quote(records[0].adjustedClose, records[0].date, records[1].adjustedClose)
  {
    match feed(ticker)
    case None => Failure(FeedFailed(ticker))
    case Some(records) =>
      if |records| < 2 then Failure(MissingRecord(ticker, |records|))
      else Success(Quote(records[0].adjustedClose, records[0].date, records[1].adjustedClose))
  }

  /** A holding's share of the current and the previous total. */
  datatype Amounts = Amounts(current: real, previous: real)

  /** A holding's shares of both totals, and the close date it was priced at
      (none for cash, which is never priced). */
  type Contribution = Dated<Amounts>

  /** A priced holding's share: both closes times the quantity, each rounded to pence on its own. */
  function Priced(q: Quote, quantity: real): (c: Contribution)
    ensures OnGrid(c.amount.current, 2) && q.current * quantity - 0.005 <= c.amount.current <= q.current * quantity + 0.005
    ensures OnGrid(c.amount.previous, 2) && q.previous * quantity - 0.005 <= c.amount.previous <= q.previous * quantity + 0.005
    ensures c.date == Some(q.date)
  {
    Dated(Amounts(Round2(q.current * quantity), Round2(q.previous * quantity)), Some(q.date))
  }

  /** One step of the loop: cash counts at its quantity in both totals without
      a lookup; any other holding is looked up and priced, or raises. */
  function VanguardContribution(feed: EodFeed, h: Holding): (r: Result<Contribution, Error>)
    ensures h.ticker == Cash ==> r == Success(Dated(Amounts(h.quantity, h.quantity), None))
    ensures h.ticker != Cash ==> (r.Success? <==> EodQuote(feed, h.ticker).Success?)
    ensures h.ticker != Cash && r.Failure? ==> r.error == EodQuote(feed, h.ticker).error
  {
    if h.ticker == Cash then Success(Dated(Amounts(h.quantity, h.quantity), None))
    else
      var q :- EodQuote(feed, h.ticker);
      Success(Priced(q, h.quantity))
  }

  /** Every holding's contribution, in order; the first failure ends the walk. */
  function PriceAll(feed: EodFeed, hs: seq<Holding>): Result<seq<Contribution>, Error>
    decreases |hs|
  {
    if |hs| == 0 then Success([])
    else
      var init :- PriceAll(feed, hs[..|hs| - 1]);
      var last :- VanguardContribution(feed, hs[|hs| - 1]);
      Success(init + [last])
  }

  /** The current total: the contributions summed left to right. */
  function CurrentTotal(cs: seq<Contribution>): real {
    if |cs| == 0 then 0.0 else CurrentTotal(cs[..|cs| - 1]) + cs[|cs| - 1].amount.current
  }

  /** The previous total: the contributions summed left to right. */
  function PreviousTotal(cs: seq<Contribution>): real {
    if |cs| == 0 then 0.0 else PreviousTotal(cs[..|cs| - 1]) + cs[|cs| - 1].amount.previous
  }

  /** The rounded percentage change; Python raises on a zero previous total. */
  function PercentChange(current: real, previous: real): (r: Result<real, Error>)
    ensures r.Failure? <==> previous == 0.0
    ensures r.Failure? ==> r.error == ZeroDivision
    ensures r.Success? ==>
      var exact := (current - previous) / previous * 100.0;
      OnGrid(r.value, 2) && exact - 0.005 <= r.value <= exact + 0.005
  {
    if previous == 0.0 then Failure(ZeroDivision)
    else Success(Round2((current - previous) / previous * 100.0))
  }

  /** What the valuation returns: the current total, the close date, the percentage change. */
  datatype VanguardReport = VanguardReport(total: real, date: string, change: real)

  /** The valuation as a whole: price every holding, sum both totals, then the
      percentage change, and only then the date (which raises when no holding
      was priced, after a zero previous total has raised first). */
  function VanguardValuation(feed: EodFeed, hs: seq<Holding>): (r: Result<VanguardReport, Error>)
    ensures r.Success? <==>
      && PriceAll(feed, hs).Success?
      && PreviousTotal(PriceAll(feed, hs).value) != 0.0
      && LastDate(PriceAll(feed, hs).value).Some?
    ensures r.Success? ==>
      && r.value.total == CurrentTotal(PriceAll(feed, hs).value)
      && Some(r.value.date) == LastDate(PriceAll(feed, hs).value)
      && Success(r.value.change)
         == PercentChange(CurrentTotal(PriceAll(feed, hs).value), PreviousTotal(PriceAll(feed, hs).value))
      && OnGrid(r.value.change, 2)
    ensures PriceAll(feed, hs).Failure? ==> r == Failure(PriceAll(feed, hs).error)
    ensures PriceAll(feed, hs).Success? && PreviousTotal(PriceAll(feed, hs).value) == 0.0 ==> r == Failure(ZeroDivision)
    ensures PriceAll(feed, hs).Success? && PreviousTotal(PriceAll(feed, hs).value) != 0.0 ==>
      LastDate(PriceAll(feed, hs).value).None? ==> r == Failure(UnboundDate)
  {
    var cs :- PriceAll(feed, hs);
    var change :- PercentChange(CurrentTotal(cs), PreviousTotal(cs));
    match LastDate(cs)
    case None => Failure(UnboundDate)
    case Some(date) => Success(VanguardReport(CurrentTotal(cs), date, change))
  }

  /** The loop of `calculate_vanguard_portfolio_value`, statement by statement. */
  method ValueVanguard(feed: EodFeed, hs: seq<Holding>) returns (r: Result<VanguardReport, Error>)
    ensures r == VanguardValuation(feed, hs)
  {
    var current, previous := 0.0, 0.0;
    var date: Option<string> := None;
    for i := 0 to |hs|
      invariant PriceAll(feed, hs[..i]).Success?
      invariant current == CurrentTotal(PriceAll(feed, hs[..i]).value)
      invariant previous == PreviousTotal(PriceAll(feed, hs[..i]).value)
      invariant date == LastDate(PriceAll(feed, hs[..i]).value)
    {
      var h := hs[i];
      if h.ticker == Cash {
        current := current + h.quantity;
        previous := previous + h.quantity;
        Step(feed, hs, i, Dated(Amounts(h.quantity, h.quantity), None));
      } else {
        var quote := EodQuote(feed, h.ticker);
        if quote.Failure? {
          Stop(feed, hs, i);
          return Failure(quote.error);
        }
        var q := quote.value;
        var share := Priced(q, h.quantity);
        current := current + share.amount.current;
        previous := previous + share.amount.previous;
        date := Some(q.date);
        PricedContribution(feed, h);
        Step(feed, hs, i, share);
      }
    }
    assert hs[..|hs|] == hs;
    Finish(feed, hs);
    var change :- PercentChange(current, previous);
    if date.None? {
      return Failure(UnboundDate);
    }
    return Success(VanguardReport(current, date.value, change));
  }

  /** What remains after the loop: the percentage (which raises on a zero previous total), then the date. */
  lemma {:induction false} Finish(feed: EodFeed, hs: seq<Holding>)
    requires PriceAll(feed, hs).Success?
    ensures var cs := PriceAll(feed, hs).value;
      VanguardValuation(feed, hs) ==
        match PercentChange(CurrentTotal(cs), PreviousTotal(cs))
        case Failure(e) => Failure(e)
        case Success(change) =>
          if LastDate(cs).None? then Failure(UnboundDate)
          else Success(VanguardReport(CurrentTotal(cs), LastDate(cs).value, change))
  {
  }

  /** One holding further: the walk over `hs[..i + 1]` extends the walk over `hs[..i]`. */
  lemma {:induction false} Advance(feed: EodFeed, hs: seq<Holding>, i: nat)
    requires i < |hs| && PriceAll(feed, hs[..i]).Success?
    ensures VanguardContribution(feed, hs[i]).Failure? ==>
      PriceAll(feed, hs[..i + 1]) == Failure(VanguardContribution(feed, hs[i]).error)
    ensures VanguardContribution(feed, hs[i]).Success? ==>
      PriceAll(feed, hs[..i + 1]) == Success(PriceAll(feed, hs[..i]).value + [VanguardContribution(feed, hs[i]).value])
  {
    assert hs[..i + 1][..i] == hs[..i];
  }

  /** A holding whose lookup succeeds contributes its priced share. */
  lemma {:induction false} PricedContribution(feed: EodFeed, h: Holding)
    requires h.ticker != Cash && EodQuote(feed, h.ticker).Success?
    ensures VanguardContribution(feed, h) == Success(Priced(EodQuote(feed, h.ticker).value, h.quantity))
  {
  }

  /** The loop invariant carried over one holding that contributes `c`. */
  lemma {:induction false} Step(feed: EodFeed, hs: seq<Holding>, i: nat, c: Contribution)
    requires i < |hs| && PriceAll(feed, hs[..i]).Success? && VanguardContribution(feed, hs[i]) == Success(c)
    ensures PriceAll(feed, hs[..i + 1]) == Success(PriceAll(feed, hs[..i]).value + [c])
    ensures CurrentTotal(PriceAll(feed, hs[..i + 1]).value) == CurrentTotal(PriceAll(feed, hs[..i]).value) + c.amount.current
    ensures PreviousTotal(PriceAll(feed, hs[..i + 1]).value) == PreviousTotal(PriceAll(feed, hs[..i]).value) + c.amount.previous
    ensures LastDate(PriceAll(feed, hs[..i + 1]).value) == if c.date.Some? then c.date else LastDate(PriceAll(feed, hs[..i]).value)
  {
    Advance(feed, hs, i);
    Extended(PriceAll(feed, hs[..i]).value, c);
  }

  /** Once a prefix of the holdings fails, the whole walk fails with the same error. */
  lemma {:induction false} FailedPrefix(feed: EodFeed, hs: seq<Holding>, k: nat)
    requires k <= |hs| && PriceAll(feed, hs[..k]).Failure?
    ensures PriceAll(feed, hs) == PriceAll(feed, hs[..k])
    decreases |hs|
  {
    if k < |hs| {
      assert hs[..|hs| - 1][..k] == hs[..k];
      FailedPrefix(feed, hs[..|hs| - 1], k);
    } else {
      assert hs[..k] == hs;
    }
  }

  /** A holding whose lookup raises ends the whole valuation with that exception. */
  lemma {:induction false} Stop(feed: EodFeed, hs: seq<Holding>, i: nat)
    requires i < |hs| && PriceAll(feed, hs[..i]).Success? && hs[i].ticker != Cash
    requires EodQuote(feed, hs[i].ticker).Failure?
    ensures VanguardValuation(feed, hs) == Failure(EodQuote(feed, hs[i].ticker).error)
  {
    Advance(feed, hs, i);
    FailedPrefix(feed, hs, i + 1);
  }

  /** Appending one contribution adds its amounts to the totals and moves the date to it if it has one. */
  lemma {:induction false} Extended(cs: seq<Contribution>, c: Contribution)
    ensures CurrentTotal(cs + [c]) == CurrentTotal(cs) + c.amount.current
    ensures PreviousTotal(cs + [c]) == PreviousTotal(cs) + c.amount.previous
    ensures LastDate(cs + [c]) == if c.date.Some? then c.date else LastDate(cs)
  {
    assert (cs + [c])[..|cs|] == cs;
  }

  /** A cash holding appended to the list adds exactly its quantity to both totals,
      leaves the date alone, and needs no lookup. */
  lemma {:induction false} CashAddsQuantity(feed: EodFeed, hs: seq<Holding>, h: Holding)
    requires h.ticker == Cash && PriceAll(feed, hs).Success?
    ensures PriceAll(feed, hs + [h]).Success?
    ensures CurrentTotal(PriceAll(feed, hs + [h]).value) == CurrentTotal(PriceAll(feed, hs).value) + h.quantity
    ensures PreviousTotal(PriceAll(feed, hs + [h]).value) == PreviousTotal(PriceAll(feed, hs).value) + h.quantity
    ensures LastDate(PriceAll(feed, hs + [h]).value) == LastDate(PriceAll(feed, hs).value)
  {
    var all := hs + [h];
    assert all[..|hs|] == hs && all[..|hs| + 1] == all;
    Step(feed, all, |hs|, Dated(Amounts(h.quantity, h.quantity), None));
  }

  /** A priced holding appended to the list adds its own priced share, each close
      times the quantity rounded to pence before it is summed, and its close date becomes the date. */
  lemma {:induction false} PricedAddsRounded(feed: EodFeed, hs: seq<Holding>, h: Holding)
    requires h.ticker != Cash && PriceAll(feed, hs).Success? && EodQuote(feed, h.ticker).Success?
    ensures PriceAll(feed, hs + [h]).Success?
    ensures CurrentTotal(PriceAll(feed, hs + [h]).value)
      == CurrentTotal(PriceAll(feed, hs).value) + Priced(EodQuote(feed, h.ticker).value, h.quantity).amount.current
    ensures PreviousTotal(PriceAll(feed, hs + [h]).value)
      == PreviousTotal(PriceAll(feed, hs).value) + Priced(EodQuote(feed, h.ticker).value, h.quantity).amount.previous
    ensures LastDate(PriceAll(feed, hs + [h]).value) == Some(EodQuote(feed, h.ticker).value.date)
  {
    var all := hs + [h];
    assert all[..|hs|] == hs && all[..|hs| + 1] == all;
    PricedContribution(feed, h);
    Step(feed, all, |hs|, Priced(EodQuote(feed, h.ticker).value, h.quantity));
  }

  /** Sums of the current values over a concatenation split into sums over the parts. */
  lemma {:induction false} CurrentTotalAppend(a: seq<Contribution>, b: seq<Contribution>)
    ensures CurrentTotal(a + b) == CurrentTotal(a) + CurrentTotal(b)
    decreases |b|
  {
    if |b| == 0 {
      assert a + b == a;
    } else {
      var init := b[..|b| - 1];
      assert a + b == (a + init) + [b[|b| - 1]];
      CurrentTotalAppend(a, init);
      Extended(a + init, b[|b| - 1]);
    }
  }

  /** Sums of the previous values over a concatenation split into sums over the parts. */
  lemma {:induction false} PreviousTotalAppend(a: seq<Contribution>, b: seq<Contribution>)
    ensures PreviousTotal(a + b) == PreviousTotal(a) + PreviousTotal(b)
    decreases |b|
  {
    if |b| == 0 {
      assert a + b == a;
    } else {
      var init := b[..|b| - 1];
      assert a + b == (a + init) + [b[|b| - 1]];
      PreviousTotalAppend(a, init);
      Extended(a + init, b[|b| - 1]);
    }
  }

  /** The walk over a concatenation is the walk over each part, one after the other. */
  lemma {:induction false} PriceAllAppend(feed: EodFeed, a: seq<Holding>, b: seq<Holding>)
    requires PriceAll(feed, a + b).Success?
    ensures PriceAll(feed, a).Success? && PriceAll(feed, b).Success?
    ensures PriceAll(feed, a + b).value == PriceAll(feed, a).value + PriceAll(feed, b).value
    decreases |b|
  {
    if |b| == 0 {
      assert a + b == a;
    } else {
      var init, last := b[..|b| - 1], b[|b| - 1];
      assert (a + b)[..|a + b| - 1] == a + init && (a + b)[|a + b| - 1] == last;
      PriceAllAppend(feed, a, init);
    }
  }

  /** Each holding is counted once: the totals of a list are the totals of its parts added. */
  lemma {:induction false} HoldingsCountedOnce(feed: EodFeed, a: seq<Holding>, b: seq<Holding>)
    requires PriceAll(feed, a + b).Success?
    ensures PriceAll(feed, a).Success? && PriceAll(feed, b).Success?
    ensures CurrentTotal(PriceAll(feed, a + b).value) == CurrentTotal(PriceAll(feed, a).value) + CurrentTotal(PriceAll(feed, b).value)
    ensures PreviousTotal(PriceAll(feed, a + b).value) == PreviousTotal(PriceAll(feed, a).value) + PreviousTotal(PriceAll(feed, b).value)
  {
    PriceAllAppend(feed, a, b);
    CurrentTotalAppend(PriceAll(feed, a).value, PriceAll(feed, b).value);
    PreviousTotalAppend(PriceAll(feed, a).value, PriceAll(feed, b).value);
  }

  /** What a holding adds to the current total, read straight off the feed:
      cash its quantity, a fund its newest close times its quantity rounded to
      pence (and nothing for a failed lookup, which a walk that goes through never meets). */
  function CurrentWorth(feed: EodFeed, h: Holding): real {
    if h.ticker == Cash then h.quantity
    else
      match EodQuote(feed, h.ticker)
      case Failure(_) => 0.0
      case Success(q) => Priced(q, h.quantity).amount.current
  }

  /** What a holding adds to the previous total: cash its quantity, a fund its
      previous close times its quantity rounded to pence. */
  function PreviousWorth(feed: EodFeed, h: Holding): real {
    if h.ticker == Cash then h.quantity
    else
      match EodQuote(feed, h.ticker)
      case Failure(_) => 0.0
      case Success(q) => Priced(q, h.quantity).amount.previous
  }

  function SumOfCurrentWorth(feed: EodFeed, hs: seq<Holding>): real
    decreases |hs|
  {
    if |hs| == 0 then 0.0 else SumOfCurrentWorth(feed, hs[..|hs| - 1]) + CurrentWorth(feed, hs[|hs| - 1])
  }

  function SumOfPreviousWorth(feed: EodFeed, hs: seq<Holding>): real
    decreases |hs|
  {
    if |hs| == 0 then 0.0 else SumOfPreviousWorth(feed, hs[..|hs| - 1]) + PreviousWorth(feed, hs[|hs| - 1])
  }

  /** Both totals are the sums of the holdings' own rounded values, each holding counted once. */
  lemma {:induction false} TotalsAreSumsOfWorth(feed: EodFeed, hs: seq<Holding>)
    requires PriceAll(feed, hs).Success?
    ensures CurrentTotal(PriceAll(feed, hs).value) == SumOfCurrentWorth(feed, hs)
    ensures PreviousTotal(PriceAll(feed, hs).value) == SumOfPreviousWorth(feed, hs)
    decreases |hs|
  {
    if |hs| > 0 {
      var init, h := hs[..|hs| - 1], hs[|hs| - 1];
      assert init + [h] == hs;
      TotalsAreSumsOfWorth(feed, init);
      if h.ticker == Cash {
        CashAddsQuantity(feed, init, h);
      } else {
        PricedAddsRounded(feed, init, h);
      }
    }
  }

  /** A walk that succeeds has one contribution per holding, each the holding's own. */
  lemma {:induction false} PriceAllPointwise(feed: EodFeed, hs: seq<Holding>)
    requires PriceAll(feed, hs).Success?
    ensures |PriceAll(feed, hs).value| == |hs|
    ensures forall i :: 0 <= i < |hs| ==> VanguardContribution(feed, hs[i]) == Success(PriceAll(feed, hs).value[i])
    decreases |hs|
  {
    if |hs| > 0 {
      var init := hs[..|hs| - 1];
      PriceAllPointwise(feed, init);
      forall i | 0 <= i < |hs| - 1
        ensures VanguardContribution(feed, hs[i]) == Success(PriceAll(feed, hs).value[i])
      {
        assert hs[i] == init[i];
      }
    }
  }

  /** No holding is ever skipped: a valuation that succeeds had at least two
      records for every priced ticker, and any holding whose lookup fails makes
      the whole valuation fail. */
  lemma {:induction false} NothingSkipped(feed: EodFeed, hs: seq<Holding>)
    ensures VanguardValuation(feed, hs).Success? ==>
      forall i :: 0 <= i < |hs| && hs[i].ticker != Cash ==>
        feed(hs[i].ticker).Some? && |feed(hs[i].ticker).value| >= 2
    ensures (exists i :: 0 <= i < |hs| && hs[i].ticker != Cash && EodQuote(feed, hs[i].ticker).Failure?) ==>
      VanguardValuation(feed, hs).Failure?
  {
    if PriceAll(feed, hs).Success? {
      PriceAllPointwise(feed, hs);
    }
  }

  /** There is no guard against a zero previous total: the division raises. */
  lemma {:induction false} ZeroPreviousRaises(feed: EodFeed, hs: seq<Holding>)
    requires PriceAll(feed, hs).Success? && PreviousTotal(PriceAll(feed, hs).value) == 0.0
    ensures VanguardValuation(feed, hs) == Failure(ZeroDivision)
  {
  }

  /** A list of cash only (with a non-zero sum) never assigns the date, and returning it raises. */
  lemma {:induction false} CashOnlyLeavesDateUnbound(feed: EodFeed, hs: seq<Holding>)
    requires forall i :: 0 <= i < |hs| ==> hs[i].ticker == Cash
    requires PriceAll(feed, hs).Success? && PreviousTotal(PriceAll(feed, hs).value) != 0.0
    ensures VanguardValuation(feed, hs) == Failure(UnboundDate)
  {
    PriceAllPointwise(feed, hs);
    assert LastDate(PriceAll(feed, hs).value).None?;
    Finish(feed, hs);
  }

  /** The reported date is the close date of the last priced holding in the list. */
  lemma {:induction false} DateOfLastPriced(feed: EodFeed, hs: seq<Holding>)
    requires VanguardValuation(feed, hs).Success?
    ensures exists i :: (0 <= i < |hs| && hs[i].ticker != Cash
      && EodQuote(feed, hs[i].ticker).Success?
      && EodQuote(feed, hs[i].ticker).value.date == VanguardValuation(feed, hs).value.date
      && forall j :: i < j < |hs| ==> hs[j].ticker == Cash)
  {
    Finish(feed, hs);
    LastPriced(feed, hs);
  }

  /** The date the walk leaves behind comes from the last holding that is not cash. */
  lemma {:induction false} LastPriced(feed: EodFeed, hs: seq<Holding>)
    requires PriceAll(feed, hs).Success? && LastDate(PriceAll(feed, hs).value).Some?
    ensures exists i :: (0 <= i < |hs| && hs[i].ticker != Cash
      && EodQuote(feed, hs[i].ticker).Success?
      && Some(EodQuote(feed, hs[i].ticker).value.date) == LastDate(PriceAll(feed, hs).value)
      && forall j :: i < j < |hs| ==> hs[j].ticker == Cash)
  {
    var cs := PriceAll(feed, hs).value;
    PriceAllPointwise(feed, hs);
    var i :| 0 <= i < |cs| && cs[i].date == LastDate(cs) && forall j :: i < j < |cs| ==> cs[j].date.None?;
    assert VanguardContribution(feed, hs[i]) == Success(cs[i]);
    assert hs[i].ticker != Cash;
    PricedContribution(feed, hs[i]);
    forall j | i < j < |hs|
      ensures hs[j].ticker == Cash
    {
      assert VanguardContribution(feed, hs[j]) == Success(cs[j]);
    }
  }

  /** The valuation reads the feed only at the tickers of priced holdings. */
  lemma {:induction false} CashReadsNoPrices(feed1: EodFeed, feed2: EodFeed, hs: seq<Holding>)
    requires forall i :: 0 <= i < |hs| && hs[i].ticker != Cash ==> feed1(hs[i].ticker) == feed2(hs[i].ticker)
    ensures PriceAll(feed1, hs) == PriceAll(feed2, hs)
    decreases |hs|
  {
    if |hs| > 0 {
      var init := hs[..|hs| - 1];
      assert forall i :: 0 <= i < |init| ==> init[i] == hs[i];
      CashReadsNoPrices(feed1, feed2, init);
      var h := hs[|hs| - 1];
      if h.ticker != Cash {
        assert feed1(h.ticker) == feed2(h.ticker);
        assert EodQuote(feed1, h.ticker) == EodQuote(feed2, h.ticker);
      }
      assert VanguardContribution(feed1, h) == VanguardContribution(feed2, h);
    }
  }

  /** A worked case: £100 cash and ten units closing at 50 after 45 are worth £600,
      up 9.09% on £550. */
  lemma {:induction false} WorkedExample(feed: EodFeed)
    requires feed("X") == Some([EodRecord(50.0, "2024-03-15"), EodRecord(45.0, "2024-03-14")])
    ensures VanguardValuation(feed, [Holding("Pound", Cash, 100.0), Holding("Fund", "X", 10.0)])
      == Success(VanguardReport(600.0, "2024-03-15", 9.09))
  {
    var hs := [Holding("Pound", Cash, 100.0), Holding("Fund", "X", 10.0)];
    WorkedExampleWalk(feed);
    WorkedExampleChange();
    Finish(feed, hs);
  }

  /** The walk of the worked case: £600 now, £550 before, dated by the fund. */
  lemma {:induction false} WorkedExampleWalk(feed: EodFeed)
    requires feed("X") == Some([EodRecord(50.0, "2024-03-15"), EodRecord(45.0, "2024-03-14")])
    ensures PriceAll(feed, [Holding("Pound", Cash, 100.0), Holding("Fund", "X", 10.0)]).Success?
    ensures var cs := PriceAll(feed, [Holding("Pound", Cash, 100.0), Holding("Fund", "X", 10.0)]).value;
      CurrentTotal(cs) == 600.0 && PreviousTotal(cs) == 550.0 && LastDate(cs) == Some("2024-03-15")
  {
    var cash, fund := Holding("Pound", Cash, 100.0), Holding("Fund", "X", 10.0);
    WorkedExampleCash(feed);
    WorkedExampleQuote(feed);
    PricedAddsRounded(feed, [cash], fund);
    assert [cash] + [fund] == [cash, fund];
  }

  /** The cash line of the worked case counts £100 in both totals. */
  lemma {:induction false} WorkedExampleCash(feed: EodFeed)
    ensures PriceAll(feed, [Holding("Pound", Cash, 100.0)]).Success?
    ensures var cs := PriceAll(feed, [Holding("Pound", Cash, 100.0)]).value;
      CurrentTotal(cs) == 100.0 && PreviousTotal(cs) == 100.0
  {
    var cash := Holding("Pound", Cash, 100.0);
    CashAddsQuantity(feed, [], cash);
    assert [] + [cash] == [cash];
  }

  /** The fund of the worked case is priced at £500 now and £450 before. */
  lemma WorkedExampleQuote(feed: EodFeed)
    requires feed("X") == Some([EodRecord(50.0, "2024-03-15"), EodRecord(45.0, "2024-03-14")])
    ensures EodQuote(feed, "X") == Success(Quote(50.0, "2024-03-15", 45.0))
    ensures Priced(Quote(50.0, "2024-03-15", 45.0), 10.0) == Dated(Amounts(500.0, 450.0), Some("2024-03-15"))
  {
    Round2Exact(50000);
    Round2Exact(45000);
  }

  /** The change of the worked case: 50 on 550 is 9.0909...%, shown as 9.09. */
  lemma WorkedExampleChange()
    ensures PercentChange(600.0, 550.0) == Success(9.09)
  {
    assert (600.0 - 550.0) / 550.0 * 100.0 == 100.0 / 11.0;
    NearestIsRounding(100.0 / 11.0 * 100.0, 909);
  }
}
