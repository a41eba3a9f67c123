# CAPM dashboard: a verified model of its table transforms and page pipeline

StockRisk-Pro is a Streamlit page that estimates CAPM expected returns. It
downloads the daily closing prices of the chosen stocks and of an index
(NIFTY 50 or the S&P 500) and puts them in one pandas frame. It shows the
prices and their normalised curves. It turns them into daily percentage
returns and fits each stock's beta and alpha against the index with a
least-squares line. Finally it shows each stock's expected return
`rf + beta * (rm - rf)`, where `rf = 0` and `rm` is the annualised mean daily
return of the index. If anything raises, the page stops and writes
"Please Select Valid Input".

The model has three modules:

- `Frames` (frames.dfy): the frames the page computes with.
  - A `Table` value holds the trading-day axis, the column labels and the value columns.
  - `DataFrame` is the mutable frame object that the code copies, fills and overwrites in place.
  - Both follow pandas label semantics: assigning to an existing label replaces that column where it stands, and a new label is appended.
- `CapmFunctions` (capm_functions.dfy): the transform library.
  - `normalize` and `daily_return` are loops over a copied frame.
  - `calculate_beta` is the regression. The least-squares fit is a function parameter.
  - `calculate_amount` is the compound-growth projection, with Python's `round(x, 2)`.
- `CapmPage` (capm_page.dfy): the page script.
  - The assembly loop and `reset_index`.
  - The beta/alpha dictionary loop.
  - `rm`, the expected-return loop, and the pairing of returns with the selected tickers.
  - The catch-all handler.

Each imperative operation is a method proved against a specification function. The properties the code promises are proved about those functions.

Prices and returns are `real`. Division by zero, which gives inf or NaN in pandas, is excluded by preconditions. Each exception that the modelled lines can raise is a `Raised` result with the pandas exception kind. The lines left out below are taken not to raise.

The page writes each panel as soon as it is computed, and Streamlit keeps whatever the script wrote before an exception. A failed run therefore shows the panels written so far and then the message.

## Model

| member | source | states |
|---|---|---|
| Frames.Assigned | main.py:41-43 | `df[name] = series` gives a well-formed frame on the series' rows whose column `name` is the series. An existing label keeps its place and a new one goes last, and every other label keeps its own column |
| Frames.AssignedColumns | main.py:41-43 | assignment adds exactly the one label and keeps all others; every resulting column is the new series or a column the frame already had, and every other column stays at its own position |
| Frames.Columns | main.py:73 | `df.columns` is the Date column first, then the value labels in order |
| Frames.DataFrame.Empty | main.py:37 | `pd.DataFrame()` has no rows and no columns |
| Frames.DataFrame.Copy | capm_functions.py:34 | `copy()` returns a new frame object with the same contents, so writes to it do not reach the original |
| Frames.DataFrame.Assign | main.py:41-43 | the frame's new value is the old value with the series assigned to the label |
| Frames.DataFrame.SetColumn | capm_functions.py:36 | replacing one column changes that column only; rows and labels are kept |
| Frames.DataFrame.SetCell | capm_functions.py:44-45 | writing one cell changes that cell only |
| CapmFunctions.NormalizedColumn | capm_functions.py:36 | a column divided by its first entry has the same length and starts at exactly 1 |
| CapmFunctions.Normalized | capm_functions.py:33-37 | the normalised table keeps the Date axis and the labels, and row 0 of every value column is 1 |
| CapmFunctions.Normalize | capm_functions.py:33-37 | raises KeyError exactly when there are value columns but no rows; otherwise returns a new frame equal to `Normalized` of the input, and leaves the input untouched |
| CapmFunctions.NormalizedColumnFixedPoint | capm_functions.py:36 | a normalised column normalises to itself |
| CapmFunctions.NormalizeIdempotent | capm_functions.py:33-37 | normalising an already normalised table is allowed and returns the same table |
| CapmFunctions.NormalizedColumnIgnoresScale | capm_functions.py:36 | normalisation does not depend on the unit the prices are quoted in |
| CapmFunctions.ReturnColumn | capm_functions.py:43-45 | a daily-return column has one entry per price and 0 in row 0 |
| CapmFunctions.DailyReturns | capm_functions.py:40-46 | the daily-return table keeps the Date axis and labels, and row 0 of every value column is 0 |
| CapmFunctions.DailyReturn | capm_functions.py:40-46 | the nested loop produces exactly `DailyReturns` of the input. Every written cell holds the change computed from the original prices, never from cells already overwritten. The input frame is untouched |
| CapmFunctions.ReturnColumnExample | capm_functions.py:44-45 | prices 100, 110, 121 and 50, 55, 60.5 both give returns 0, 10, 10 |
| CapmFunctions.GrowBack | capm_functions.py:44 | applying a day's percentage change to the previous price gives the new price |
| CapmFunctions.ReturnsRebuildPrices | capm_functions.py:43-45 | compounding the daily returns from the first price gives back every price, so the returns lose only the starting level |
| CapmFunctions.ReturnColumnIgnoresScale | capm_functions.py:44 | rescaling a price column by a non-zero factor leaves its daily returns unchanged |
| CapmFunctions.DailyReturnsOfNormalized | capm_functions.py:33-46 | the daily returns of the normalised prices equal those of the prices |
| CapmFunctions.CalculateBeta | capm_functions.py:49-53 | raises exactly when the index or stock column is missing or the fit fails; otherwise returns the fit of the stock's column on the index's as (beta, alpha) |
| CapmFunctions.RoundHalfEven | capm_functions.py:58 | `round` to an integer is within 0.5 of the value, and a tie goes to the even integer |
| CapmFunctions.RoundCents | capm_functions.py:58 | `round(x, 2)` is a whole number of hundredths within 0.005 of `x` |
| CapmFunctions.RoundCentsNearest | capm_functions.py:58 | no multiple of 0.01 is closer to `x` than `round(x, 2)` |
| CapmFunctions.RoundCentsOfCents | capm_functions.py:58 | a value already in whole hundredths is unchanged by rounding |
| CapmFunctions.CompoundAmount | capm_functions.py:57 | the unrounded amount is the principal itself when `t = 0` or `r = 0`, and 0 when the principal is 0 |
| CapmFunctions.CalculateAmount | capm_functions.py:56-58 | the amount is a whole number of hundredths within 0.005 of `p * (1 + r/100)^t` |
| CapmFunctions.AmountWithoutGrowth | capm_functions.py:57-58 | with `t = 0` or `r = 0` the amount is the principal, rounded |
| CapmFunctions.AmountOfNothing | capm_functions.py:57-58 | a principal of 0 grows to 0 |
| CapmFunctions.AmountOneMorePeriod | capm_functions.py:57 | one more period multiplies the unrounded amount by `1 + r/100` |
| CapmFunctions.AmountExamples | capm_functions.py:56-58 | 1000 at 10% for one period is 1100.00; 1000 at 0% is 1000.00; 0 at any rate is 0 |
| CapmFunctions.ConstantReturnsAreCompoundGrowth | capm_functions.py:44-57 | prices that rise by the same percentage every day follow the unrounded `calculate_amount` curve from the first price |
| CapmPage.IndexName | main.py:16-28 | the index column is "nifty50" exactly when the index chosen is ^NSEI, and "sp500" otherwise; it is never "Date" |
| CapmPage.AssignAll | main.py:37-41 | adding the stock columns one by one to an empty frame gives a well-formed frame, on the download dates once any stock was added and with no rows before |
| CapmPage.AssignAllColumns | main.py:39-41 | the frame has a column for each selected ticker and no other, and each column is one of the downloaded series |
| CapmPage.AssignAllDistinct | main.py:39-41 | for distinct tickers, the frame holds the downloads in selection order |
| CapmPage.Assembled | main.py:37-45 | with no trading days the frame keeps an unnamed index, so `stocks_df['Date']` raises KeyError. Otherwise `reset_index` raises ValueError exactly when a column is already called "Date". A table that comes out is well-formed on the download dates, has no "Date" value column, and its index column is the index download |
| CapmPage.AssembleFrame | main.py:37-44 | the assembly loop on a fresh frame raises exactly as `Assembled` does, or builds the frame whose value is `Assembled` |
| CapmPage.AssembledColumnOrder | main.py:39-45 | for distinct tickers that clash with neither "Date" nor the index label, the columns are the stocks in selection order followed by the index; with no trading days assembly raises KeyError instead |
| CapmPage.Put | main.py:77-78 | `d[k] = v` replaces the value of an existing key where it stands and leaves every other entry as it was; a new key is appended at the end |
| CapmPage.BetaColumns | main.py:73-74 | the loop fits exactly the labels other than "Date" and the index label |
| CapmPage.CollectStep | main.py:73-78 | one turn of the loop skips "Date" and the index label; otherwise it raises exactly when that column's fit raises, and else puts the column's slope into `beta` and its intercept into `alpha`, keeping the two dicts' keys equal. A successful turn is `beta[i] = b` and `alpha[i] = a` as `Put` states them, so the entries already collected stay |
| CapmPage.Collected | main.py:70-78 | after the loop has visited a prefix of the columns without raising, `beta` and `alpha` have the same keys in the same order |
| CapmPage.CollectedRaiseIsFinal | main.py:73-78 | once a fit has raised, later columns change nothing: the exception leaves the loop |
| CapmPage.CollectBetas | main.py:70-78 | the dictionary loop over `columns` computes exactly `Collected` and stops at the first exception |
| CapmPage.CollectedFits | main.py:73-78 | over distinct labels, the loop succeeds exactly when every fitted column's fit succeeds. Then `beta` and `alpha` hold one entry per fitted column, in column order, each with that column's own slope and intercept |
| CapmPage.MarketReturn | main.py:90 | `rm` times the number of rows is 252 times the sum of the index column, so it is 252 times that column's mean, row 0 included |
| CapmPage.MarketReturnOfSteadyIndex | main.py:90 | the mean behind `rm` includes the forced 0 of row 0: an index rising `rate`% on each of its n-1 later days has `rm = 252 * rate * (n-1)/n` |
| CapmPage.CapmReturn | main.py:94 | the excess return over `rf` is `beta` times the market's excess return `rm - rf` |
| CapmPage.CapmLine | main.py:89-94 | beta 1 earns the market return and beta 0 the risk-free rate; with `rf = 0` the expected return is `beta * rm` |
| CapmPage.CapmReturns | main.py:92-94 | one expected return per `beta` entry |
| CapmPage.ExpectedReturns | main.py:92-94 | the loop appends, in `beta`'s order, `rf + beta * (rm - rf)`, which equals `beta * rm` |
| CapmPage.PageOf | main.py:33-111 | the only message a run writes is the fallback; it writes no panel exactly when assembling the frame raises, and otherwise starts with the assembled price table; it writes no message exactly when it writes four panels |
| CapmPage.NoTradingDaysShowsOnlyMessage | main.py:37-52 | a run whose downloads hold no trading day writes the fallback message and no panel |
| CapmPage.PricesPage | main.py:49-111 | from the assembled prices, the page shows the price table first; it stops there exactly when `normalize` raises, and otherwise shows the normalised chart next; it writes no message exactly when it writes four panels |
| CapmPage.BetasPage | main.py:70-111 | the panels already shown stay in place. Nothing is added exactly when the beta loop raises. The page ends without a message exactly when it adds two panels, the second being the CAPM returns beside `stocks_list` |
| CapmPage.ShowBetasAndReturns | main.py:70-100 | after the panels already shown, the page adds the beta table and then the return table. It falls back to the message when a fit raises, or when a non-empty `stocks_list` and the returns differ in length |
| CapmPage.RunPage | main.py:33-111 | one run of the page writes exactly the panels and message of `PageOf` |
| CapmPage.FallbackOnAnyFailure | main.py:33-111 | whatever raises, the only message written is "Please Select Valid Input"; the message is absent exactly when all four panels, ending with the return table, were written |
| CapmPage.StockColumnsKept | main.py:73-74 | the loop skips the "Date" column and keeps the selected stock columns in order |
| CapmPage.BetaColumnsOfSelection | main.py:73-74 | over the assembled columns, the loop fits the selected stocks in selection order |
| CapmPage.SelectionBetas | main.py:77 | the beta dictionary of a clean selection has the selected tickers as its keys, in order |
| CapmPage.CollectedOfSelection | main.py:70-78 | over a clean selection, the loop succeeds exactly when every selected stock's fit does, and it fills `beta` in selection order |
| CapmPage.BetasPageLinesUp | main.py:70-96 | over a clean selection the return table is reached exactly when every fit succeeds. Then row k of the beta table and of the return table are both stock k, and the return is `beta * rm` |
| CapmPage.SelectionReturns | main.py:89-94 | with `rf = 0`, each expected return of a clean selection is that stock's `beta * rm` |
| CapmPage.SelectionStockColumn | main.py:39-68 | column k of the daily-return frame of a clean selection holds stock k's daily returns |
| CapmPage.SelectionIndexColumn | main.py:43-68 | the index column of the daily-return frame holds the index's daily returns |
| CapmPage.SelectionLinesUp | main.py:37-96 | for distinct tickers, none called "Date" or like the index label, over at least one trading day, the page reaches the return table exactly when every stock's fit on the index succeeds. The beta table then has one row per stock in selection order, and the return table pairs `stocks_list` row by row with that stock's `beta * rm`, where `rm` is 252 times the mean daily return of the index |

## Left out

- Streamlit page setup, widgets and layout (main.py:8-31): the chosen index and tickers are parameters. The head, tail and price chart (main.py:49-61) are one price panel; the charts and histograms are not drawn.
- The histograms (main.py:102-108) and `print(beta_df)` (main.py:83) are rendering. The model takes them not to raise, so a run that reaches the return table writes no message.
- `yf.download` (main.py:36, 40) is network I/O. The closing prices are given as columns on one common trading-day axis, and pandas index alignment and NaN filling of series with different dates are not modelled.
- The Date conversions (main.py:45-47): dates are opaque integers that the model carries along, and the conversions are taken not to raise.
- `start` and `end` (main.py:34-35) are not used after they are computed, but line 35 can raise. It builds the date `year` years before today with the same month and day. On 29 February that date does not exist unless the earlier year is a leap year, and `datetime.date` raises ValueError. The bare `except` then writes only the message, before any panel. The model takes line 35 not to raise, so `PageOf`, `RunPage` and `FallbackOnAnyFailure` do not cover a run started on such a day.
- Frames.DataFrame.Assign: requires the series to lie on the frame's dates, or the frame to have no columns and no rows yet. Pandas would realign a series on other dates to the frame's index; that realignment is not modelled.
- `np.polyfit` (capm_functions.py:52): its numerics are a function parameter that returns a fit or nothing. Nothing means numpy raised.
- The `rm` in `calculate_beta` (capm_functions.py:50) is dead. Its only effect, a KeyError on a missing index column, is part of `CalculateBeta`.
- `interactive_plot`, `histogram` and `plot_investment_period` (capm_functions.py:9-30, 61-77) are plotting.
- The `str(round(..., 2))` display formatting of betas and returns (main.py:82, 94): the tables hold the unrounded values.
- Floating point: values are reals. Division by zero, which pandas turns into inf or NaN, is a precondition.
- CapmFunctions.RoundCents: rounds half-to-even on the exact real value. It does not model the binary float that Python's `round` actually sees.
- CapmFunctions.CalculateAmount: the number of periods is a natural number; fractional or negative exponents are not modelled.
- CapmFunctions.DailyReturn: requires at least one row. On the page, a run with no trading days has already raised KeyError at main.py:45, so `daily_return` never sees an empty frame.
- CapmPage.Assembled: with no trading days it raises KeyError whatever the tickers. A ticker called "Date" or "index" would change where such a run fails; none of the tickers the page offers (main.py:18-27) is called either.
- The chained writes `df_daily_return[i][j] = ...` (capm_functions.py:44-45) are modelled as writes into the copy, which is what pandas does without copy-on-write.
