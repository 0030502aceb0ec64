# Investment portfolio monitor, modelled in Dafny

This project models the two bots of the investment-portfolio-monitor
repository.

- **The monitor bot** (`monitor/main.py`):
  - It values a Vanguard portfolio at its two latest end-of-day closes, giving a total and a rounded percentage change.
  - It values an AJ Bell Dodl portfolio from a price scraped off a fund page.
  - It adds the two totals and posts a five-line Markdown report to a webhook.
  - It answers with the webhook's status, or with 500 for any exception.
- **The Lambda bot** (`lambda/lambda_function.py`):
  - It values one portfolio at its latest closes, skipping a holding whose close is exactly zero.
  - It posts a two-line message with the total and the close date.

Amounts are exact reals.

- Python's `round(x, n)` and the `,.nf` format are modelled as round-half-even on the exact value.
- The price API, the fund page and the webhook are function parameters:
  - an `EodFeed` from ticker to records, newest first
  - a `Scraper` from fetch number to page text
  - a poster from message to `PostOutcome`
- Each of them can fail, and a failure is an exception of the program.

Every loop is written twice:
- as a method that follows the Python loop statement by statement;
- as a prefix-recursive reference fold.

The method is proved equal to the fold. Lemmas then relate the fold to per-holding sums and to the failure cases.

Every text the programs produce has a reader in the model, and a round-trip lemma shows that nothing is lost. The texts are:
- the amount format
- the signed percentage
- the long date
- the five-line report
- the two-line message

What is lost is only the rounding.

Modules, one concept each:
- `Wrappers`: the `Option` and `Result` types.
- `Numerals`: digit strings.
- `Rounding`: round half to even.
- `PriceText`: the `[^0-9.]` cleaning and `float`.
- `Dates`: `strptime`/`strftime`.
- `Lines`: splitting at newlines, and the caption lines.
- `Money`: the amount and percentage formats and their readers.
- `Portfolio`: the shared types, the loops' date variable and the date formatting.
- `Vanguard`, `AjBell`, `Monitor`: the monitor bot.
- `Captions`, `Layout`: the report layout.
- `Lambda`: the Lambda bot.

Behaviours of the code that the model keeps as written:
- The monitor bot raises on any failed lookup; no holding is skipped.
- It does not guard against a zero previous total, so the division raises.
- The AJ Bell loop assigns the value of each fund line instead of adding it, so only the last line counts. The configuration holds a single fund.
- In the Lambda bot, a holding skipped for a zero close still sets the date.

## Model

| member | source | states |
|---|---|---|
| Rounding.RoundHalfEven | monitor/main.py:94-99 | The integer within one half of `x`. On a tie it is the even one. It is never negative for a non-negative `x`. |
| Rounding.NearestIsRounding | monitor/main.py:94-99 | Any integer strictly closer than one half to `x` is its rounding. |
| Rounding.RoundTo | monitor/main.py:109-111 | `round(x, places)` is a whole number of 10^-places and lies within half such a unit of `x`. |
| Rounding.Round2 | lambda/lambda_function.py:41 | `round(x, 2)` is a multiple of 0.01 within 0.005 of `x`. |
| Rounding.RoundToOnGrid | monitor/main.py:94-99 | Rounding a value already on the grid gives it back. |
| Rounding.RoundToIdempotent | monitor/main.py:94-99 | Rounding twice is rounding once. |
| Rounding.Round2Exact | lambda/lambda_function.py:41 | A whole number of pence is its own rounding. |
| Numerals.Digits | monitor/main.py:127 | `str(n)`: at least one digit, with no leading zero unless `n` is 0. It denotes `n`. |
| Numerals.Padded | monitor/main.py:128-130 | The zero-padded field of exactly `width` digits that denotes `n`. |
| Numerals.PaddedValueOf | monitor/main.py:128-130 | Padding the value of a digit string to its length gives the string back. |
| PriceText.Clean | monitor/main.py:31 | The cleaned text holds only digits and points. It is no longer than the input. A text already clean is unchanged. |
| PriceText.CleanChar | monitor/main.py:31 | A single character is kept as it is when it is a digit or a point, and deleted otherwise. It is never replaced. |
| PriceText.CleanAppend | monitor/main.py:31 | Cleaning a concatenation cleans each part and joins the results. |
| PriceText.CleanIdempotent | monitor/main.py:31 | Cleaning a second time changes nothing. |
| PriceText.ParseDecimal | monitor/main.py:31 | `float` on a clean text succeeds exactly when there is at most one point and at least one digit. The value is never negative. |
| PriceText.CleanSeparatorsExample | monitor/main.py:31 | The pound sign and the comma are deleted. |
| PriceText.CleanExample | monitor/main.py:31 | `"£1,234.56"` cleans to `"1234.56"`. |
| PriceText.ParseExample | monitor/main.py:31 | `"1234.56"` reads as 1234.56. |
| Dates.ParseIsoDate | monitor/main.py:128-130 | `strptime(s, "%Y-%m-%d")` succeeds only on a valid calendar date whose padded `YYYY-MM-DD` text is `s`. |
| Dates.IsoRoundTrip | monitor/main.py:128-130 | Every valid date's text parses back to that date. With the contract above, the parser accepts exactly the texts of valid dates. |
| Dates.MonthNumber | monitor/main.py:128-130 | A text is a month name exactly when it is the `%B` name of the month returned. |
| Dates.MonthNamesDistinct | monitor/main.py:128-130 | No two months share a name. |
| Dates.LongDate | monitor/main.py:128-130 | `strftime("%d %B %Y")`: a two-digit day, a space, the name, a space, a four-digit year. |
| Dates.LongDateSingleLine | lambda/lambda_function.py:75 | A long date holds no line break. |
| Dates.LongDateRoundTrip | lambda/lambda_function.py:75 | A long date reads back as the date it shows. |
| Lines.UnboldBold | monitor/main.py:146-152 | A `caption**value**` line gives back its value. |
| Lines.LabelledRoundTrip | lambda/lambda_function.py:77 | A caption followed by a value gives back the value. |
| Lines.SingleLineNoBreak | lambda/lambda_function.py:77 | A text is on one line exactly when it holds no newline. |
| Money.Group | monitor/main.py:127 | The `,` option: a separator between every three digits. The result has `(n-1)/3` more characters than the `n` digits and starts with the same digit. |
| Money.GroupCommas | monitor/main.py:127 | Commas stand exactly at every fourth place counted from the right end. |
| Money.CleanGroup | monitor/main.py:127 | Deleting the separators gives back the digits that were grouped. |
| Money.FormatAmount | monitor/main.py:127 | `f"£{x:,.nf}"` starts with `£`. A minus follows exactly when `x` is negative. |
| Money.FormatAmountLayout | monitor/main.py:127 | After the `£` and any minus come the whole units grouped by commas in threes, then a point and exactly `places` decimal digits whose value is the rounded fraction; with no places, nothing follows the whole units. The lambda's `f"£{total:,.2f}"` at lambda/lambda_function.py:74 is the same rendering. |
| Money.FormatAmountExample | monitor/main.py:127 | 1234.5 with two places renders as `£1,234.50`. |
| Money.FormatAmountSingleLine | monitor/main.py:140 | An amount holds no newline. |
| Money.FormatAmountRoundTrip | monitor/main.py:31 | Cleaning a formatted amount and reading it with `float` gives the magnitude of `x` rounded to `places` decimals. A page showing a formatted price reads back as that price. |
| Money.Shown | monitor/main.py:144 | The value an amount text shows: the magnitude rounded to `places`, with the sign of `x`. |
| Money.ReadAmountRoundTrip | monitor/main.py:144 | An amount text reads back as the value it shows, sign included. |
| Money.PercentText | monitor/main.py:131-135 | The rendering ends with `%`. It starts with `+` exactly when the change is at least 0, and with `-` exactly when it is below. |
| Money.ReprDecimals | monitor/main.py:131-135 | `repr` shows one decimal exactly when the second decimal is zero, and two otherwise. Either way it denotes the same hundredths. |
| Money.ReprRoundTrip | monitor/main.py:131-135 | `float` reads a `repr` back as the hundredths it was made from. |
| Money.HundredthsValue | monitor/main.py:131-135 | On the 0.01 grid, the hundredths are the magnitude exactly. |
| Money.PercentTextRoundTrip | monitor/main.py:131-135 | The text between the sign and `%` reads as the magnitude of the change. |
| Money.PercentTextSingleLine | monitor/main.py:131-135 | A percentage holds no newline. |
| Money.ReadPercentRoundTrip | monitor/main.py:131-135 | A rounded percentage reads back exactly, sign included. |
| Portfolio.FormatDate | lambda/lambda_function.py:75 | Date formatting succeeds exactly when `strptime` accepts the record's date, and otherwise raises on that text. The long form reads back as the parsed date. |
| Vanguard.EodQuote | monitor/main.py:51-72 | The lookup succeeds exactly when the fetch succeeds with at least two records. Record 0 gives the current close and its date; record 1 gives the previous close. A failed fetch or a short list raises. |
| Vanguard.Priced | monitor/main.py:94-99 | Each close times the quantity is rounded to pence on its own. The result is a multiple of 0.01 within 0.005 of the product. |
| Vanguard.VanguardContribution | monitor/main.py:84-107 | Cash counts at its quantity in both totals with no date and no lookup. Any other holding succeeds exactly when its lookup does, and fails with the lookup's error. |
| Portfolio.LastDate | monitor/main.py:89-93 | The date variable after either bot's loop (here, and at lambda/lambda_function.py:35-37) is absent exactly when no line assigned it. Otherwise it is the date of a line that assigned it, with no assigning line after it. |
| Vanguard.PercentChange | monitor/main.py:109-111 | Raises exactly when the previous total is zero. Otherwise it is on the 0.01 grid, within 0.005 of `(cur-prev)/prev*100`. |
| Vanguard.VanguardValuation | monitor/main.py:50-116 | A valuation comes out exactly when every holding is priced, the previous total is non-zero and some holding set the date. Its total is the sum of current values, its date is the date of the last priced holding, and its change is the rounded percentage of the two totals, on the 0.01 grid. Otherwise the first failure decides the error: the lookup's own error, then ZeroDivision, then the unbound date. |
| Vanguard.ValueVanguard | monitor/main.py:74-116 | The loop as written gives exactly the reference valuation, for every feed and every list, failures included. |
| Vanguard.Stop | monitor/main.py:68-72 | A holding whose lookup raises ends the whole valuation with that exception. |
| Vanguard.FailedPrefix | monitor/main.py:68-72 | Once a prefix fails, the whole walk fails with the same error. |
| Vanguard.CashAddsQuantity | monitor/main.py:84-87 | An appended cash holding adds exactly its quantity to both totals and leaves the date alone. |
| Vanguard.PricedAddsRounded | monitor/main.py:94-107 | An appended priced holding adds its own rounded current and previous values, and its close date becomes the date. |
| Vanguard.PriceAllAppend | monitor/main.py:77-107 | The walk over a concatenation is the walk over each part, one after the other. |
| Vanguard.HoldingsCountedOnce | monitor/main.py:74-107 | The totals of a list are the totals of its parts added. |
| Vanguard.TotalsAreSumsOfWorth | monitor/main.py:74-107 | Both totals equal the sums of each holding's own value read straight off the feed: cash at its quantity, a fund at its rounded closes. |
| Vanguard.PriceAllPointwise | monitor/main.py:77-107 | A successful walk has one contribution per holding, each that holding's own. |
| Vanguard.NothingSkipped | monitor/main.py:59-72 | A successful valuation had at least two records for every priced ticker. Any failed lookup fails the whole valuation. |
| Vanguard.ZeroPreviousRaises | monitor/main.py:109-111 | A zero previous total raises the division error. |
| Vanguard.CashOnlyLeavesDateUnbound | monitor/main.py:116 | A list of cash only never assigns the date, so the return raises. |
| Vanguard.DateOfLastPriced | monitor/main.py:89-116 | The reported date is the close date of a priced holding with only cash after it. |
| Vanguard.CashReadsNoPrices | monitor/main.py:84-93 | The feed is read only at the tickers of priced holdings. |
| Vanguard.WorkedExample | monitor/main.py:74-111 | £100 cash and ten units closing at 50 after 45 give £600, dated by the fund, and a change of 9.09%. |
| AjBell.ScrapedPrice | monitor/main.py:26-31 | A failed fetch raises. Otherwise the price is read exactly when `float` accepts the cleaned text, and raises on that text when it does not. A price read is `float` of the cleaned page text, and it is never negative. |
| AjBell.FundValue | monitor/main.py:31-34 | The inner helper succeeds exactly when the price is read. Its value is a whole number of pence within half a penny of the quantity times the scraped price. |
| AjBell.AjBellValuation | monitor/main.py:39-47 | Succeeds exactly when every fetch succeeds. It is 0.0 for no lines, and otherwise the value of the last line only. |
| AjBell.ValueAjBell | monitor/main.py:39-47 | The loop as written gives exactly the reference valuation. |
| AjBell.FailedPrefix | monitor/main.py:35-37 | Once a fetch raises, the whole valuation fails with that error. |
| AjBell.OnlyLastLineCounts | monitor/main.py:41-44 | Two lists of the same length whose last lines hold the same quantity are valued alike. |
| AjBell.SameSuccess | monitor/main.py:41-44 | Success and the error depend only on the number of lines. |
| AjBell.AppendLine | monitor/main.py:41-44 | A line added after lines that went through decides the whole outcome. |
| AjBell.TenPounds | monitor/main.py:31-34 | A page showing "10" prices a quantity at ten pounds a unit, rounded to pence. |
| AjBell.OverwriteExample | monitor/main.py:39-47 | Lines of one and two units at 10 are worth £20, not £30. |
| AjBell.ScrapedFormattedPrice | monitor/main.py:31 | A page showing `£1,234.56`-style text reads as that amount's rounded magnitude. |
| Layout.Compose | monitor/main.py:146-152 | The report begins and ends with a newline. |
| Layout.NineLines | monitor/main.py:146-152 | Five newline-free lines in the report's layout split into its nine lines, blanks included. |
| Layout.ComposeLines | monitor/main.py:146-152 | The report splits into the blank first line, the three Vanguard lines, a blank, the AJ Bell line, a blank, the combined line, and the empty rest. |
| Layout.ReadTextsRoundTrip | monitor/main.py:146-152 | Five single-line values are read back from the report exactly as they were put in. |
| Monitor.MonitorTextsSingleLine | monitor/main.py:127-144 | The three amounts and the percentage each fit on one line. |
| Monitor.ValuesRoundTrip | monitor/main.py:127-144 | Each formatted value reads back: both totals and the combined total rounded as shown, the exact change, and the date. |
| Monitor.MonitorMessageRoundTrip | monitor/main.py:146-152 | The report reads back as the three totals rounded as shown, the exact percentage change and the date. |
| Monitor.Report | monitor/main.py:119-152 | The message is composed exactly when the Vanguard valuation, the date formatting and the AJ Bell valuation all succeed. The first exception, in that order, is the outcome: the Vanguard error, then the bad date, then the AJ Bell error. |
| Monitor.ReportShowsValuations | monitor/main.py:143-152 | When both valuations succeed and the record's date parses, the report is composed and reads back as the Vanguard total, the AJ Bell total and their sum (each rounded as shown), the change, and the record's date. |
| Monitor.MonitorReport | monitor/main.py:121-144 | A run composes a report exactly when both valuations and the date formatting succeed. |
| Monitor.Status | monitor/main.py:159-170 | A failed report or a raising POST gives 500. Any other status is the webhook's own answer to the composed report. |
| Monitor.MonitorStatus | monitor/main.py:168-170 | Any exception on the way to the report gives 500. |
| Monitor.DeliveredStatus | monitor/main.py:167 | A delivered report's status is whatever the webhook answered, 500 included. |
| Monitor.RunMonitor | monitor/main.py:119-170 | `main` as written answers exactly as the reference `MonitorStatus`. |
| Lambda.LatestClose | lambda/lambda_function.py:11-20 | The lookup succeeds exactly when the fetch gives at least one record, and returns record 0. A failed fetch or an empty list raises. |
| Lambda.RoundedValue | lambda/lambda_function.py:41 | Close times quantity rounded to pence: a multiple of 0.01 within 0.005 of the product. |
| Lambda.Fetched | lambda/lambda_function.py:35-45 | A fetched holding always sets the date to its record's date. It adds nothing when the close is exactly zero, and its rounded value otherwise. |
| Lambda.LambdaShare | lambda/lambda_function.py:31-45 | Cash adds its quantity with no date and no lookup. Any other holding succeeds exactly when its lookup does, and fails with the lookup's error. |
| Lambda.PortfolioValue | lambda/lambda_function.py:23-48 | A valuation comes out exactly when every lookup succeeds and some holding set the date. Its total is the fold of the shares, and its date is that of the last holding looked up. A failed lookup raises its own error; an unassigned date raises UnboundDate. |
| Lambda.CalculatePortfolioValue | lambda/lambda_function.py:23-48 | The loop as written, `continue` included, gives exactly the reference valuation. |
| Lambda.Stop | lambda/lambda_function.py:35-37 | A lookup that raises ends the valuation with that exception. Nothing is caught. |
| Lambda.FailedPrefix | lambda/lambda_function.py:35-37 | Once a prefix fails, the whole walk fails with the same error. |
| Lambda.CashAddsQuantity | lambda/lambda_function.py:31-33 | Cash adds exactly its quantity and leaves the date alone. |
| Lambda.ZeroCloseSkipped | lambda/lambda_function.py:38-40 | A holding whose latest close is exactly zero leaves the total unchanged, but its date becomes the date. |
| Lambda.PricedAddsRounded | lambda/lambda_function.py:41-45 | A non-zero close adds close times quantity rounded to pence, and its date becomes the date. |
| Lambda.TotalIsSumOfWorth | lambda/lambda_function.py:24-48 | The total is the cash plus the rounded values of the non-zero-priced holdings, each counted once. Nothing else contributes. |
| Lambda.ShareAllPointwise | lambda/lambda_function.py:26-45 | A successful walk has one share per holding, each that holding's own. |
| Lambda.CashOnlyWalk | lambda/lambda_function.py:31-33 | A list of cash only is always walked through and sets no date. |
| Lambda.CashOnlyLeavesDateUnbound | lambda/lambda_function.py:48 | With no non-cash holding, the date is unbound and the return raises. |
| Lambda.DateOfLastFetched | lambda/lambda_function.py:35-48 | The returned date is that of a looked-up holding with only cash after it, whether or not it was skipped for a zero close. |
| Lambda.OnlyLatestRecordRead | lambda/lambda_function.py:16-17 | Feeds that agree on the newest record of every looked-up ticker give the same valuation. |
| Lambda.WorkedExample | lambda/lambda_function.py:23-48 | Ten units at 50, then a zero-close fund, then £100 cash give £600, dated by the skipped fund. |
| Lambda.ReadLines | lambda/lambda_function.py:77 | Two single-line values after their captions are read back by their readers. |
| Lambda.LambdaMessageRoundTrip | lambda/lambda_function.py:74-77 | The message reads back as the total rounded to pence and the date. |
| Lambda.LambdaReport | lambda/lambda_function.py:72-77 | The message is composed exactly when the valuation and the date formatting succeed. A failed valuation is the outcome. |
| Lambda.LambdaReportShowsValuation | lambda/lambda_function.py:72-77 | When the valuation succeeds and its date parses, the message is composed and reads back as the valuation's total rounded to pence and the record's date. |
| Lambda.SendWebhook | lambda/lambda_function.py:51-68 | Any response, 4xx and 5xx included, gives its own status. An exception gives 500. Any other status comes from a response. |
| Lambda.LambdaHandler | lambda/lambda_function.py:71-79 | The handler raises exactly when the report does. |
| Lambda.HandlerRaisesBeforeSending | lambda/lambda_function.py:71-79 | The handler raises only in the valuation or the date formatting, never in the POST. When it does send, it posts the composed message, and a raising POST becomes a 500 that the handler drops. |

## Left out

- Network I/O: HTTP and JSON decoding, `urllib3` and `json.loads`, are oracle parameters. A missing key in the JSON is a failed fetch.
- Web scraping: the lxml/XPath lookup of the fund page (monitor/main.py:26-30) is part of the scraper parameter. So is an element whose text is missing.
- Logging calls are left out.
- The polling loop with its time zone, clock and `sleep` (monitor/main.py:173-184) is left out: it is scheduling, not valuation.
- The configuration files (monitor/config.py, lambda/config.py) are not part of this model: the holdings are a parameter.
- The AWS CDK deployment (portfolio_monitor_bot_cdk, app.py) is not part of this model.
- Rounding.Round2: rounds the exact product half to even. Python rounds the nearest binary float, so a value such as 2.675 rounds down in Python and up here.
- Money.FormatAmount: works on exact reals. The float `-0.0`, which Python prints with a minus sign, is plain zero here. Binary-float representation error in the digits is left out.
- Money.PercentText: models `repr` in its fixed-point form only. It does not model the exponent form Python uses for very large or very small floats. It also does not model the sign of `-0.0`: a small negative change that `round` makes `-0.0` passes the `>= 0` test, so Python prints `+-0.0%` (monitor/main.py:131-135), while the model prints `+0.0%`.
- PriceText.ParseDecimal: models `float` on digits and points only. Since the cleaning deletes everything else, including the whitespace that `strip()` removes, no other input reaches it.
- Dates.ParseIsoDate: accepts the zero-padded `YYYY-MM-DD` form only. `strptime` also takes single-digit months and days, which the price feed does not send.
- Dates.LongDate: pads the year to four digits. Platforms differ for years below 1000.
- Lambda.LambdaHandler: the handler returns `None`. The model records the posted message and the discarded send status instead.
