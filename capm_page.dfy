/** The CAPM dashboard page: it assembles the closing prices of the chosen
    stocks and index into one frame, shows them and their normalised curves,
    fits each stock's beta and alpha against the index, and shows each stock's
    CAPM expected return. Any exception on the way stops the page at the point
    reached and writes one fallback message. */
module CapmPage {
  import opened Frames
  import opened CapmFunctions

  /** Trading days per year: the factor that annualises the mean daily return. */
  const TradingDaysPerYear: real := 252.0

  /** The risk-free rate the page uses. */
  const RiskFreeRate: real := 0.0

  /** What the page writes when anything raises. */
  const FallbackMessage: string := "Please Select Valid Input"

  /** The label of the index column for the chosen index symbol. */
  function IndexName(index: string): (name: string)
    ensures name == "nifty50" <==> index == "^NSEI"
    ensures name == "nifty50" || name == "sp500"
    ensures name != DateColumn
  {
    if index == "^NSEI" then "nifty50" else "sp500"
  }

  // ----------------------------------------------------------------- assembly

  /** The downloaded closing prices: one series per selected stock and one for
      the index, all on the same trading days. */
  predicate Downloads(dates: seq<Date>, stocks: seq<string>, closes: seq<seq<real>>, indexClose: seq<real>)
  {
    && |closes| == |stocks|
    && |indexClose| == |dates|
    && forall k | 0 <= k < |closes| :: |closes[k]| == |dates|
  }

  /** The frame after `stocks_df[stock] = close` for each stock in turn, starting from `pd.DataFrame()`. */
  function AssignAll(dates: seq<Date>, stocks: seq<string>, closes: seq<seq<real>>): (t: Table)
    requires |closes| == |stocks| && forall k | 0 <= k < |closes| :: |closes[k]| == |dates|
    ensures WellFormed(t) && t.dates == if stocks == [] then [] else dates
  {
    if stocks == [] then Table([], [], [])
    else
      var n := |stocks| - 1;
      Assigned(AssignAll(dates, stocks[..n], closes[..n]), stocks[n], Series(dates, closes[n]))
  }

  /** The frame has a column for each selected ticker and no other, and each
      of its columns is one of the downloaded series. */
  lemma {:induction false} AssignAllColumns(dates: seq<Date>, stocks: seq<string>, closes: seq<seq<real>>)
    requires |closes| == |stocks| && forall k | 0 <= k < |closes| :: |closes[k]| == |dates|
    ensures forall x :: x in AssignAll(dates, stocks, closes).names <==> x in stocks
    ensures forall c | 0 <= c < |AssignAll(dates, stocks, closes).cols| :: AssignAll(dates, stocks, closes).cols[c] in closes
  {
    if stocks != [] {
      var n := |stocks| - 1;
      assert stocks == stocks[..n] + [stocks[n]];
      assert closes == closes[..n] + [closes[n]];
      AssignAllColumns(dates, stocks[..n], closes[..n]);
      AssignedColumns(AssignAll(dates, stocks[..n], closes[..n]), stocks[n], Series(dates, closes[n]));
    }
  }

  /** main.py lines 37-45: the stock columns in selection order, then the index column;
      `reset_index` then makes the trading day column 0, which raises when a
      column is already called "Date". With no trading days at all the frame
      never takes the downloads' "Date" index, so `reset_index` names its new
      column "index" and `stocks_df['Date']` raises KeyError. */
  function Assembled(dates: seq<Date>, stocks: seq<string>, closes: seq<seq<real>>,
                     indexName: string, indexClose: seq<real>): (r: Result<Table>)
    requires Downloads(dates, stocks, closes, indexClose)
    ensures r.Raised? <==> dates == [] || DateColumn in stocks || indexName == DateColumn
    ensures r.Raised? ==> r.error == if dates == [] then KeyError else ValueError
    ensures r.Ok? ==> && WellFormed(r.value) && r.value.dates == dates
                      && DateColumn !in r.value.names
                      && indexName in r.value.names && ColumnOf(r.value, indexName) == indexClose
                      && forall c | 0 <= c < |r.value.cols| :: r.value.cols[c] in closes || r.value.cols[c] == indexClose
  {
    AssignAllColumns(dates, stocks, closes);
    AssignedColumns(AssignAll(dates, stocks, closes), indexName, Series(dates, indexClose));
    var t := Assigned(AssignAll(dates, stocks, closes), indexName, Series(dates, indexClose));
    if dates == [] then Raised(KeyError)
    else if DateColumn in t.names then Raised(ValueError)
    else Ok(t)
  }

  /** main.py lines 37-44 as the page runs them, on a DataFrame object. */
  method AssembleFrame(dates: seq<Date>, stocks: seq<string>, closes: seq<seq<real>>,
                       indexName: string, indexClose: seq<real>) returns (r: Result<DataFrame>)
    requires Downloads(dates, stocks, closes, indexClose)
    ensures r.Raised? ==> Assembled(dates, stocks, closes, indexName, indexClose) == Raised(r.error)
    ensures r.Ok? ==> && fresh(r.value) && r.value.Valid()
                      && Assembled(dates, stocks, closes, indexName, indexClose) == Ok(r.value.Value())
  {
    var df := new DataFrame.Empty();
    for k := 0 to |stocks|
      invariant fresh(df) && df.Valid()
      invariant df.Value() == AssignAll(dates, stocks[..k], closes[..k])
    {
      assert stocks[..k + 1][..k] == stocks[..k] && closes[..k + 1][..k] == closes[..k];
      df.Assign(stocks[k], Series(dates, closes[k]));
    }
    assert stocks[..|stocks|] == stocks && closes[..|closes|] == closes;
    df.Assign(indexName, Series(dates, indexClose));
    if dates == [] {
      return Raised(KeyError);
    }
    if DateColumn in df.names {
      return Raised(ValueError);
    }
    r := Ok(df);
  }

  lemma AssignedNewColumn(t: Table, name: string, s: Series)
    requires WellFormed(t) && CanAssign(t, s) && name !in t.names
    ensures Assigned(t, name, s) == Table(s.dates, t.names + [name], t.cols + [s.values])
  {
  }

  lemma {:induction false} AssignAllDistinct(dates: seq<Date>, stocks: seq<string>, closes: seq<seq<real>>)
    requires |closes| == |stocks| && forall k | 0 <= k < |closes| :: |closes[k]| == |dates|
    requires Distinct(stocks)
    ensures AssignAll(dates, stocks, closes) == Table(if stocks == [] then [] else dates, stocks, closes)
  {
    if stocks != [] {
      var n := |stocks| - 1;
      var pre, name := stocks[..n], stocks[n];
      assert stocks == pre + [name];
      assert closes == closes[..n] + [closes[n]];
      assert Distinct(pre);
      AssignAllDistinct(dates, pre, closes[..n]);
      var t := AssignAll(dates, pre, closes[..n]);
      assert name !in t.names;
      AssignedNewColumn(t, name, Series(dates, closes[n]));
    }
  }

  /** With distinct tickers that clash with neither "Date" nor the index label,
      and at least one trading day, the frame holds one column per selected
      stock, in selection order, and the index column last. */
  lemma {:induction false} AssembledColumnOrder(dates: seq<Date>, stocks: seq<string>, closes: seq<seq<real>>,
                                                indexName: string, indexClose: seq<real>)
    requires Downloads(dates, stocks, closes, indexClose)
    requires Distinct(stocks) && DateColumn !in stocks && indexName !in stocks && indexName != DateColumn
    ensures Assembled(dates, stocks, closes, indexName, indexClose)
         == if dates == [] then Raised(KeyError) else Ok(Table(dates, stocks + [indexName], closes + [indexClose]))
  {
    AssignAllDistinct(dates, stocks, closes);
  }

  // -------------------------------------------------------- the beta/alpha loop

  /** A Python dict entry; a dict is the list of its entries in insertion order. */
  datatype Entry = Entry(key: string, value: real)

  function Keys(d: seq<Entry>): (ks: seq<string>)
    ensures |ks| == |d| && forall i | 0 <= i < |d| :: ks[i] == d[i].key
  {
    seq(|d|, i requires 0 <= i < |d| => d[i].key)
  }

  /** `d[k] = v`: a key already present keeps its place and takes the new
      value; a new key goes last. */
  function Put(d: seq<Entry>, k: string, v: real): (r: seq<Entry>)
    ensures Keys(r) == if k in Keys(d) then Keys(d) else Keys(d) + [k]
    ensures Entry(k, v) in r
    ensures k !in Keys(d) ==> r == d + [Entry(k, v)]
    ensures k in Keys(d) ==> r == d[IndexOf(Keys(d), k) := Entry(k, v)]
  {
    if k in Keys(d) then
      var i := IndexOf(Keys(d), k);
      var r := d[i := Entry(k, v)];
      assert Keys(r) == Keys(d);
      r
    else
      var r := d + [Entry(k, v)];
      assert Keys(r) == Keys(d) + [k];
      r
  }

  /** The labels the loop fits, in column order: all but "Date" and the index. */
  function BetaColumns(cols: seq<string>, indexName: string): (r: seq<string>)
    ensures forall x :: x in r <==> x in cols && x != DateColumn && x != indexName
  {
    if cols == [] then []
    else
      var n := |cols| - 1;
      assert cols == cols[..n] + [cols[n]];
      BetaColumns(cols[..n], indexName) + (if cols[n] != DateColumn && cols[n] != indexName then [cols[n]] else [])
  }

  /** The `beta` and `alpha` dicts after the loop of main.py lines 73-78 has visited
      `cols` in order; the first fit that raises ends the loop. */
  function Collected(t: Table, cols: seq<string>, indexName: string, fit: Fitter): (r: Result<(seq<Entry>, seq<Entry>)>)
    requires WellFormed(t) && indexName != DateColumn
    ensures r.Ok? ==> Keys(r.value.0) == Keys(r.value.1)
  {
    if cols == [] then Ok(([], []))
    else
      var n := |cols| - 1;
      var name := cols[n];
      match Collected(t, cols[..n], indexName, fit)
      case Raised(e) => Raised(e)
      case Ok(acc) => CollectStep(t, acc, name, indexName, fit)
  }

  /** One turn of the loop of main.py lines 73-78 on the column `name`, with the dicts `acc` so far. */
  function CollectStep(t: Table, acc: (seq<Entry>, seq<Entry>), name: string, indexName: string, fit: Fitter)
    : (r: Result<(seq<Entry>, seq<Entry>)>)
    requires WellFormed(t) && indexName != DateColumn
    ensures name == DateColumn || name == indexName ==> r == Ok(acc)
    ensures r.Raised? <==> name != DateColumn && name != indexName && CalculateBeta(t, name, indexName, fit).Raised?
    ensures r.Ok? && name != DateColumn && name != indexName ==>
      && Entry(name, CalculateBeta(t, name, indexName, fit).value.0) in r.value.0
      && Entry(name, CalculateBeta(t, name, indexName, fit).value.1) in r.value.1
    ensures Keys(acc.0) == Keys(acc.1) && r.Ok? ==> Keys(r.value.0) == Keys(r.value.1)
    ensures r.Ok? && name != DateColumn && name != indexName ==>
      r.value == (Put(acc.0, name, CalculateBeta(t, name, indexName, fit).value.0),
                  Put(acc.1, name, CalculateBeta(t, name, indexName, fit).value.1))
  {
    if name != DateColumn && name != indexName then
      match CalculateBeta(t, name, indexName, fit)
      case Raised(e) => Raised(e)
      case Ok(ba) => Ok((Put(acc.0, name, ba.0), Put(acc.1, name, ba.1)))
    else Ok(acc)
  }

  lemma CollectedAfterRaise(t: Table, cols: seq<string>, indexName: string, fit: Fitter)
    requires WellFormed(t) && indexName != DateColumn && |cols| > 0
    requires Collected(t, cols[..|cols| - 1], indexName, fit).Raised?
    ensures Collected(t, cols, indexName, fit) == Collected(t, cols[..|cols| - 1], indexName, fit)
  {
  }

  /** Once the loop has raised on a prefix of the columns, it has raised for good. */
  lemma {:induction false} CollectedRaiseIsFinal(t: Table, cols: seq<string>, i: nat, indexName: string, fit: Fitter)
    requires WellFormed(t) && indexName != DateColumn && i <= |cols|
    requires Collected(t, cols[..i], indexName, fit).Raised?
    ensures Collected(t, cols, indexName, fit) == Collected(t, cols[..i], indexName, fit)
    decreases |cols|
  {
    if i == |cols| {
      assert cols[..i] == cols;
    } else {
      var n := |cols| - 1;
      assert cols[..n][..i] == cols[..i];
      CollectedRaiseIsFinal(t, cols[..n], i, indexName, fit);
      CollectedAfterRaise(t, cols, indexName, fit);
    }
  }

  /** One more turn of the loop of main.py lines 73-78 after it has visited `cols[..i]`. */
  lemma CollectedStep(t: Table, cols: seq<string>, i: nat, indexName: string, fit: Fitter,
                      acc: (seq<Entry>, seq<Entry>))
    requires WellFormed(t) && indexName != DateColumn && i < |cols|
    requires Collected(t, cols[..i], indexName, fit) == Ok(acc)
    ensures Collected(t, cols[..i + 1], indexName, fit) == CollectStep(t, acc, cols[i], indexName, fit)
  {
    assert cols[..i + 1][..i] == cols[..i];
  }

  /** main.py lines 70-78: fill `beta` and `alpha` with one fit per stock column. */
  method CollectBetas(daily: DataFrame, indexName: string, fit: Fitter) returns (r: Result<(seq<Entry>, seq<Entry>)>)
    requires daily.Valid() && indexName != DateColumn
    ensures r == Collected(daily.Value(), Columns(daily.Value()), indexName, fit)
  {
    var t := daily.Value();
    var columns := Columns(t);
    var beta, alpha := [], [];
    for i := 0 to |columns|
      invariant Collected(t, columns[..i], indexName, fit) == Ok((beta, alpha))
    {
      var name := columns[i];
      CollectedStep(t, columns, i, indexName, fit, (beta, alpha));
      if name != DateColumn && name != indexName {
        var fitted := CalculateBeta(t, name, indexName, fit);
        if fitted.Raised? {
          CollectedRaiseIsFinal(t, columns, i + 1, indexName, fit);
          return Raised(fitted.error);
        }
        beta := Put(beta, name, fitted.value.0);
        alpha := Put(alpha, name, fitted.value.1);
      }
    }
    assert columns[..|columns|] == columns;
    r := Ok((beta, alpha));
  }

  /** Both dicts hold, in column order, exactly the fitted columns, each with its
      own fit's slope and intercept. */
  predicate FitsInColumnOrder(t: Table, cols: seq<string>, indexName: string, fit: Fitter,
                              beta: seq<Entry>, alpha: seq<Entry>)
    requires WellFormed(t) && indexName != DateColumn
  {
    && Keys(beta) == BetaColumns(cols, indexName)
    && Keys(alpha) == BetaColumns(cols, indexName)
    && (forall i | 0 <= i < |beta| :: beta[i].key != DateColumn)
    && forall i | 0 <= i < |beta| ::
         CalculateBeta(t, beta[i].key, indexName, fit) == Ok((beta[i].value, alpha[i].value))
  }

  /** Over distinct labels the loop succeeds exactly when every stock column's
      fit succeeds, and then `beta` and `alpha` have one entry per stock column,
      in column order. */
  lemma {:induction false} CollectedFits(t: Table, cols: seq<string>, indexName: string, fit: Fitter)
    requires WellFormed(t) && indexName != DateColumn && Distinct(cols)
    ensures Collected(t, cols, indexName, fit).Ok?
        <==> forall x | x in BetaColumns(cols, indexName) :: CalculateBeta(t, x, indexName, fit).Ok?
    ensures Collected(t, cols, indexName, fit).Ok? ==>
              FitsInColumnOrder(t, cols, indexName, fit, Collected(t, cols, indexName, fit).value.0,
                                Collected(t, cols, indexName, fit).value.1)
  {
    if cols != [] {
      var n := |cols| - 1;
      var pre, name := cols[..n], cols[n];
      assert Distinct(pre);
      CollectedFits(t, pre, indexName, fit);
      assert name !in pre;
      var kept := name != DateColumn && name != indexName;
      assert BetaColumns(cols, indexName) == BetaColumns(pre, indexName) + (if kept then [name] else []);
      match Collected(t, pre, indexName, fit)
      case Raised(_) =>
      case Ok(acc) =>
        if kept && CalculateBeta(t, name, indexName, fit).Ok? {
          var ba := CalculateBeta(t, name, indexName, fit).value;
          assert name !in Keys(acc.0) && name !in Keys(acc.1);
          assert Collected(t, cols, indexName, fit).value == (acc.0 + [Entry(name, ba.0)], acc.1 + [Entry(name, ba.1)]);
        }
    }
  }

  // ------------------------------------------------------- market and CAPM return

  function Sum(s: seq<real>): real
  {
    if s == [] then 0.0 else s[0] + Sum(s[1..])
  }

  /** `Series.mean()` of a non-empty column. */
  function Mean(s: seq<real>): real
    requires |s| > 0
  {
    Sum(s) / |s| as real
  }

  /** main.py line 90: `rm`, the mean daily return of the index column, annualised. */
  function MarketReturn(daily: Table, indexName: string): (rm: real)
    requires WellFormed(daily) && indexName in daily.names && |daily.dates| > 0
    ensures rm * |daily.dates| as real == TradingDaysPerYear * Sum(ColumnOf(daily, indexName))
  {
    var n := |daily.dates| as real;
    var s := Sum(ColumnOf(daily, indexName));
    assert s / n * TradingDaysPerYear * n == TradingDaysPerYear * s;
    Mean(ColumnOf(daily, indexName)) * TradingDaysPerYear
  }

  lemma {:induction false} SumOfConstant(s: seq<real>, v: real)
    requires forall i | 0 <= i < |s| :: s[i] == v
    ensures Sum(s) == |s| as real * v
  {
    if s != [] {
      SumOfConstant(s[1..], v);
    }
  }

  /** The mean behind `rm` counts the 0 that `daily_return` puts in row 0: an
      index that rises by `rate` percent on each of its n-1 later days has
      `rm == 252 * rate * (n-1)/n`, not `252 * rate`. */
  lemma {:induction false} MarketReturnOfSteadyIndex(x: seq<real>, rate: real)
    requires |x| > 0 && ReturnBasesNonZero(x)
    requires forall i | 1 <= i < |x| :: ReturnColumn(x)[i] == rate
    ensures Mean(ReturnColumn(x)) * TradingDaysPerYear
         == TradingDaysPerYear * rate * (|x| - 1) as real / |x| as real
  {
    var r := ReturnColumn(x);
    SumOfSteadyReturns(r, rate);
    MeanOfSteadySum(Sum(r), |x| as real, rate, TradingDaysPerYear);
  }

  lemma SumOfSteadyReturns(r: seq<real>, rate: real)
    requires |r| > 0 && r[0] == 0.0
    requires forall i | 1 <= i < |r| :: r[i] == rate
    ensures Sum(r) == (|r| as real - 1.0) * rate
  {
    SumOfConstant(r[1..], rate);
  }

  lemma MeanOfSteadySum(s: real, n: real, rate: real, c: real)
    requires n > 0.0 && s == (n - 1.0) * rate
    ensures s / n * c == c * rate * (n - 1.0) / n
  {
    assert c * s == c * rate * (n - 1.0);
  }

  /** The security market line: `rf + beta * (rm - rf)`. */
  function CapmReturn(rf: real, beta: real, rm: real): (r: real)
    ensures r - rf == beta * (rm - rf)
  {
    rf + beta * (rm - rf)
  }

  /** A stock that moves with the market earns the market return, a stock
      with beta 0 the risk-free rate; with the page's risk-free rate of 0 the
      expected return is `beta * rm`. */
  lemma CapmLine(rf: real, beta: real, rm: real)
    ensures CapmReturn(rf, 1.0, rm) == rm
    ensures CapmReturn(rf, 0.0, rm) == rf
    ensures CapmReturn(RiskFreeRate, beta, rm) == beta * rm
  {
  }

  /** The expected return of every stock in `beta`, in the dict's order. */
  function CapmReturns(beta: seq<Entry>, rm: real): (values: seq<real>)
    ensures |values| == |beta|
  {
    seq(|beta|, k requires 0 <= k < |beta| => CapmReturn(RiskFreeRate, beta[k].value, rm))
  }

  /** main.py lines 92-94: append one expected return per `beta` entry, in the dict's order. */
  method ExpectedReturns(beta: seq<Entry>, rm: real) returns (values: seq<real>)
    ensures |values| == |beta|
    ensures forall k | 0 <= k < |beta| :: values[k] == CapmReturn(RiskFreeRate, beta[k].value, rm)
    ensures forall k | 0 <= k < |beta| :: values[k] == beta[k].value * rm
  {
    values := [];
    for k := 0 to |beta|
      invariant |values| == k
      invariant forall i | 0 <= i < k :: values[i] == CapmReturn(RiskFreeRate, beta[i].value, rm)
    {
      values := values + [CapmReturn(RiskFreeRate, beta[k].value, rm)];
    }
  }

  // ------------------------------------------------------------------ the page

  /** What the page has written: its panels in order, and the fallback message if it raised. */
  datatype Panel =
    | PriceTable(prices: Table)                              // main.py lines 52, 56, 61
    | NormalizedChart(normalized: Table)                     // main.py line 65
    | BetaTable(betas: seq<Entry>)                           // main.py line 87
    | ReturnTable(stocks: seq<string>, values: seq<real>)    // main.py line 100

  datatype Page = Page(panels: seq<Panel>, message: Option<string>)

  /** Prices that the transforms can divide by: non-zero first entries and
      non-zero bases for every day-over-day change. */
  predicate UsableColumn(x: seq<real>)
  {
    (|x| > 0 ==> x[0] != 0.0) && ReturnBasesNonZero(x)
  }

  predicate UsablePrices(closes: seq<seq<real>>, indexClose: seq<real>)
  {
    (forall x | x in closes :: UsableColumn(x)) && UsableColumn(indexClose)
  }

  lemma AssembledUsable(dates: seq<Date>, stocks: seq<string>, closes: seq<seq<real>>,
                        indexName: string, indexClose: seq<real>)
    requires Downloads(dates, stocks, closes, indexClose) && UsablePrices(closes, indexClose)
    requires Assembled(dates, stocks, closes, indexName, indexClose).Ok?
    ensures FirstEntriesNonZero(Assembled(dates, stocks, closes, indexName, indexClose).value)
    ensures ReturnBasesNonZeroAll(Assembled(dates, stocks, closes, indexName, indexClose).value)
  {
    var t := Assembled(dates, stocks, closes, indexName, indexClose).value;
    assert forall c | 0 <= c < |t.cols| :: UsableColumn(t.cols[c]);
  }

  /** The whole run of main.py lines 33-111, as the page the user sees. */
  function PageOf(index: string, dates: seq<Date>, stocks: seq<string>, closes: seq<seq<real>>,
                  indexClose: seq<real>, fit: Fitter): (page: Page)
    requires Downloads(dates, stocks, closes, indexClose) && UsablePrices(closes, indexClose)
    ensures page.message == None || page.message == Some(FallbackMessage)
    ensures page.panels == [] <==> Assembled(dates, stocks, closes, IndexName(index), indexClose).Raised?
    ensures page.panels != [] ==>
      page.panels[0] == PriceTable(Assembled(dates, stocks, closes, IndexName(index), indexClose).value)
    ensures page.message == None <==> |page.panels| == 4
  {
    var indexName := IndexName(index);
    match Assembled(dates, stocks, closes, indexName, indexClose)
    case Raised(_) => Page([], Some(FallbackMessage))
    case Ok(prices) =>
      AssembledUsable(dates, stocks, closes, indexName, indexClose);
      PricesPage(prices, stocks, indexName, fit)
  }

  /** The assembled prices a page run goes on from (main.py line 49 on). */
  predicate PagePrices(prices: Table, indexName: string)
  {
    && WellFormed(prices) && indexName in prices.names && indexName != DateColumn
    && FirstEntriesNonZero(prices) && ReturnBasesNonZeroAll(prices)
  }

  /** main.py lines 49-111, from the assembled prices: the price panel, then the
      normalised chart unless `normalize` raises, then the beta loop. */
  function PricesPage(prices: Table, stocks: seq<string>, indexName: string, fit: Fitter): (page: Page)
    requires PagePrices(prices, indexName)
    ensures page.message == None || page.message == Some(FallbackMessage)
    ensures |page.panels| >= 1 && page.panels[0] == PriceTable(prices)
    ensures |page.panels| == 1 <==> NormalizeRaises(prices)
    ensures |page.panels| > 1 ==> page.panels[1] == NormalizedChart(Normalized(prices))
    ensures page.message == None <==> |page.panels| == 4
  {
    if NormalizeRaises(prices) then Page([PriceTable(prices)], Some(FallbackMessage))
    else
      BetasPage([PriceTable(prices), NormalizedChart(Normalized(prices))], DailyReturns(prices), stocks, indexName, fit)
  }

  /** The daily returns a page run fits betas on (main.py line 68). */
  predicate PageReturns(daily: Table, indexName: string)
  {
    WellFormed(daily) && indexName in daily.names && indexName != DateColumn && |daily.dates| > 0
  }

  /** main.py lines 70-111, after the panels `shown`: the beta loop, then the beta
      table, then the CAPM returns, which are put beside `stocks_list`. */
  function BetasPage(shown: seq<Panel>, daily: Table, stocks: seq<string>, indexName: string, fit: Fitter): (page: Page)
    requires PageReturns(daily, indexName)
    ensures page.message == None || page.message == Some(FallbackMessage)
    ensures |page.panels| >= |shown| && page.panels[..|shown|] == shown
    ensures page.panels == shown <==> Collected(daily, Columns(daily), indexName, fit).Raised?
    ensures page.message == None <==> |page.panels| == |shown| + 2
    ensures page.message == None ==>
      page.panels[|shown| + 1] == ReturnTable(stocks, CapmReturns(Collected(daily, Columns(daily), indexName, fit).value.0,
                                                                  MarketReturn(daily, indexName)))
  {
    match Collected(daily, Columns(daily), indexName, fit)
    case Raised(_) => Page(shown, Some(FallbackMessage))
    case Ok(ba) =>
      var expected := CapmReturns(ba.0, MarketReturn(daily, indexName));
      if |stocks| > 0 && |expected| != |stocks| then Page(shown + [BetaTable(ba.0)], Some(FallbackMessage))
      else Page(shown + [BetaTable(ba.0), ReturnTable(stocks, expected)], None)
  }

  /** main.py lines 70-111 as the page runs them. */
  method ShowBetasAndReturns(shown: seq<Panel>, dailyDf: DataFrame, stocks: seq<string>,
                             indexName: string, fit: Fitter) returns (page: Page)
    requires dailyDf.Valid() && PageReturns(dailyDf.Value(), indexName)
    ensures page == BetasPage(shown, dailyDf.Value(), stocks, indexName, fit)
  {
    var collected := CollectBetas(dailyDf, indexName, fit);
    if collected.Raised? {
      return Page(shown, Some(FallbackMessage));
    }
    var beta := collected.value.0;
    var panels := shown + [BetaTable(beta)];
    var rm := MarketReturn(dailyDf.Value(), indexName);
    var returnValue := ExpectedReturns(beta, rm);
    assert returnValue == CapmReturns(beta, rm);
    // `return_df['Return Value'] = return_value` needs one value per row of `stocks_list`;
    // a frame with no rows yet takes its rows from the list instead
    if |stocks| > 0 && |returnValue| != |stocks| {
      return Page(panels, Some(FallbackMessage));
    }
    page := Page(panels + [ReturnTable(stocks, returnValue)], None);
  }

  /** main.py lines 33-111: one run of the page. */
  method RunPage(index: string, dates: seq<Date>, stocks: seq<string>, closes: seq<seq<real>>,
                 indexClose: seq<real>, fit: Fitter) returns (page: Page)
    requires Downloads(dates, stocks, closes, indexClose) && UsablePrices(closes, indexClose)
    ensures page == PageOf(index, dates, stocks, closes, indexClose, fit)
  {
    var indexName := IndexName(index);
    var assembled := AssembleFrame(dates, stocks, closes, indexName, indexClose);
    if assembled.Raised? {
      return Page([], Some(FallbackMessage));
    }
    var stocksDf := assembled.value;
    var prices := stocksDf.Value();
    AssembledUsable(dates, stocks, closes, indexName, indexClose);
    assert PageOf(index, dates, stocks, closes, indexClose, fit) == PricesPage(prices, stocks, indexName, fit);
    var normalized := Normalize(stocksDf);
    if normalized.Raised? {
      return Page([PriceTable(prices)], Some(FallbackMessage));
    }
    var shown := [PriceTable(prices), NormalizedChart(normalized.value.Value())];
    var dailyDf := DailyReturn(stocksDf);
    page := ShowBetasAndReturns(shown, dailyDf, stocks, indexName, fit);
  }

  /** Whatever raises, the page writes the one fallback message, after the
      panels it had already written; it writes no message exactly when it
      reached the return table. */
  lemma FallbackOnAnyFailure(index: string, dates: seq<Date>, stocks: seq<string>, closes: seq<seq<real>>,
                             indexClose: seq<real>, fit: Fitter)
    requires Downloads(dates, stocks, closes, indexClose) && UsablePrices(closes, indexClose)
    ensures var page := PageOf(index, dates, stocks, closes, indexClose, fit);
      && (page.message == None || page.message == Some(FallbackMessage))
      && (page.message == None <==> |page.panels| == 4)
      && (page.message == None ==> page.panels[3].ReturnTable?)
  {
    var indexName := IndexName(index);
    var assembled := Assembled(dates, stocks, closes, indexName, indexClose);
    if assembled.Ok? {
      AssembledUsable(dates, stocks, closes, indexName, indexClose);
      var prices := assembled.value;
      if !NormalizeRaises(prices) {
        var daily := DailyReturns(prices);
        assert PageReturns(daily, indexName);
      }
    }
  }

  /** A run whose downloads hold no trading day stops at main.py line 45,
      before the first panel, and writes only the fallback message. */
  lemma NoTradingDaysShowsOnlyMessage(index: string, stocks: seq<string>, closes: seq<seq<real>>,
                                      indexClose: seq<real>, fit: Fitter)
    requires Downloads([], stocks, closes, indexClose) && UsablePrices(closes, indexClose)
    ensures PageOf(index, [], stocks, closes, indexClose, fit) == Page([], Some(FallbackMessage))
  {
  }

  lemma {:induction false} StockColumnsKept(stocks: seq<string>, indexName: string)
    requires DateColumn !in stocks && indexName !in stocks
    ensures BetaColumns([DateColumn] + stocks, indexName) == stocks
  {
    if stocks != [] {
      var n := |stocks| - 1;
      var cols := [DateColumn] + stocks;
      assert cols[..|cols| - 1] == [DateColumn] + stocks[..n];
      StockColumnsKept(stocks[..n], indexName);
      assert stocks == stocks[..n] + [stocks[n]];
    } else {
      assert [DateColumn][..0] == [];
    }
  }

  /** The stock columns of the daily-return frame are fitted in selection order. */
  lemma {:induction false} BetaColumnsOfSelection(stocks: seq<string>, indexName: string)
    requires DateColumn !in stocks && indexName !in stocks
    ensures BetaColumns([DateColumn] + stocks + [indexName], indexName) == stocks
  {
    var cols := [DateColumn] + stocks + [indexName];
    assert cols[..|cols| - 1] == [DateColumn] + stocks;
    StockColumnsKept(stocks, indexName);
  }

  /** A selection the page can line up: distinct tickers, none called "Date" or like the index column. */
  predicate CleanSelection(stocks: seq<string>, indexName: string)
  {
    Distinct(stocks) && DateColumn !in stocks && indexName !in stocks && indexName != DateColumn
  }

  lemma ColumnsOfSelectionDistinct(stocks: seq<string>, indexName: string)
    requires CleanSelection(stocks, indexName)
    ensures Distinct([DateColumn] + stocks + [indexName])
  {
    var cols := [DateColumn] + stocks + [indexName];
    forall i, j | 0 <= i < j < |cols| ensures cols[i] != cols[j] {
      if i == 0 {
        assert cols[j] in stocks + [indexName];
      } else if j == |cols| - 1 {
        assert cols[i] == stocks[i - 1];
      } else {
        assert cols[i] == stocks[i - 1] && cols[j] == stocks[j - 1];
      }
    }
  }

  /** The beta of the k-th selected stock in a daily-return table laid out as the page lays it out. */
  function StockBeta(daily: Table, stocks: seq<string>, indexName: string, fit: Fitter, k: nat): real
    requires PageReturns(daily, indexName) && k < |stocks| && stocks[k] != DateColumn
    requires CalculateBeta(daily, stocks[k], indexName, fit).Ok?
  {
    CalculateBeta(daily, stocks[k], indexName, fit).value.0
  }

  /** The beta table a clean selection gives when every fit succeeds: one
      entry per selected stock, in selection order. */
  function SelectionBetas(daily: Table, stocks: seq<string>, indexName: string, fit: Fitter): (b: seq<Entry>)
    requires PageReturns(daily, indexName) && DateColumn !in stocks
    requires forall k | 0 <= k < |stocks| :: CalculateBeta(daily, stocks[k], indexName, fit).Ok?
    ensures Keys(b) == stocks
  {
    seq(|stocks|, k requires 0 <= k < |stocks| => Entry(stocks[k], StockBeta(daily, stocks, indexName, fit, k)))
  }

  /** Over a clean selection the beta loop succeeds exactly when every selected
      stock's fit does, and then fills `beta` in selection order. */
  lemma CollectedOfSelection(daily: Table, stocks: seq<string>, indexName: string, fit: Fitter)
    requires PageReturns(daily, indexName) && CleanSelection(stocks, indexName)
    requires daily.names == stocks + [indexName]
    ensures Collected(daily, Columns(daily), indexName, fit).Ok?
        <==> forall k | 0 <= k < |stocks| :: CalculateBeta(daily, stocks[k], indexName, fit).Ok?
    ensures Collected(daily, Columns(daily), indexName, fit).Ok? ==>
              Collected(daily, Columns(daily), indexName, fit).value.0 == SelectionBetas(daily, stocks, indexName, fit)
  {
    var cols := Columns(daily);
    assert cols == [DateColumn] + stocks + [indexName];
    ColumnsOfSelectionDistinct(stocks, indexName);
    BetaColumnsOfSelection(stocks, indexName);
    CollectedFits(daily, cols, indexName, fit);
    if forall k | 0 <= k < |stocks| :: CalculateBeta(daily, stocks[k], indexName, fit).Ok? {
      forall x | x in stocks ensures CalculateBeta(daily, x, indexName, fit).Ok? {
        var k :| 0 <= k < |stocks| && stocks[k] == x;
      }
      var ba := Collected(daily, cols, indexName, fit).value;
      FittedAreSelectionBetas(daily, stocks, indexName, fit, ba.0, ba.1);
    } else {
      var k :| 0 <= k < |stocks| && !CalculateBeta(daily, stocks[k], indexName, fit).Ok?;
      assert stocks[k] in BetaColumns(cols, indexName);
    }
  }

  lemma FittedAreSelectionBetas(daily: Table, stocks: seq<string>, indexName: string, fit: Fitter,
                                beta: seq<Entry>, alpha: seq<Entry>)
    requires PageReturns(daily, indexName) && DateColumn !in stocks
    requires forall k | 0 <= k < |stocks| :: CalculateBeta(daily, stocks[k], indexName, fit).Ok?
    requires FitsInColumnOrder(daily, Columns(daily), indexName, fit, beta, alpha)
    requires BetaColumns(Columns(daily), indexName) == stocks
    ensures beta == SelectionBetas(daily, stocks, indexName, fit)
  {
    var want := SelectionBetas(daily, stocks, indexName, fit);
    forall k | 0 <= k < |stocks| ensures beta[k] == want[k] {
      assert Keys(beta)[k] == beta[k].key;
    }
  }

  /** Over a clean selection, the beta loop and the return list line up with
      `stocks_list`: the page reaches the return table exactly when every
      stock's fit succeeds, and then row k of both tables is stock k. */
  lemma BetasPageLinesUp(shown: seq<Panel>, daily: Table, stocks: seq<string>,
                         indexName: string, fit: Fitter)
    requires PageReturns(daily, indexName) && CleanSelection(stocks, indexName)
    requires daily.names == stocks + [indexName]
    ensures BetasPage(shown, daily, stocks, indexName, fit).message == None
        <==> forall k | 0 <= k < |stocks| :: CalculateBeta(daily, stocks[k], indexName, fit).Ok?
    ensures BetasPage(shown, daily, stocks, indexName, fit).message == None ==>
      BetasPage(shown, daily, stocks, indexName, fit).panels == shown + [
        BetaTable(SelectionBetas(daily, stocks, indexName, fit)),
        ReturnTable(stocks, seq(|stocks|, k requires 0 <= k < |stocks| =>
                        StockBeta(daily, stocks, indexName, fit, k) * MarketReturn(daily, indexName)))]
  {
    CollectedOfSelection(daily, stocks, indexName, fit);
    if forall k | 0 <= k < |stocks| :: CalculateBeta(daily, stocks[k], indexName, fit).Ok? {
      SelectionReturns(daily, stocks, indexName, fit);
    }
  }

  /** With the page's risk-free rate of 0, the return table holds `beta * rm` of each selected stock. */
  lemma SelectionReturns(daily: Table, stocks: seq<string>, indexName: string, fit: Fitter)
    requires PageReturns(daily, indexName) && DateColumn !in stocks
    requires forall k | 0 <= k < |stocks| :: CalculateBeta(daily, stocks[k], indexName, fit).Ok?
    ensures CapmReturns(SelectionBetas(daily, stocks, indexName, fit), MarketReturn(daily, indexName))
         == seq(|stocks|, k requires 0 <= k < |stocks| =>
                  StockBeta(daily, stocks, indexName, fit, k) * MarketReturn(daily, indexName))
  {
    var b := SelectionBetas(daily, stocks, indexName, fit);
    var rm := MarketReturn(daily, indexName);
    var want := seq(|stocks|, k requires 0 <= k < |stocks| => StockBeta(daily, stocks, indexName, fit, k) * rm);
    forall k | 0 <= k < |stocks| ensures CapmReturns(b, rm)[k] == want[k] {
      CapmLine(RiskFreeRate, b[k].value, rm);
    }
  }

  /** The annualised index return of main.py line 90, from the index's closing prices. */
  function IndexReturn(indexClose: seq<real>): real
    requires |indexClose| > 0 && ReturnBasesNonZero(indexClose)
  {
    Mean(ReturnColumn(indexClose)) * TradingDaysPerYear
  }

  /** A run the page can line up: prices it can divide by, over at least one
      trading day, for a clean selection. */
  predicate CleanRun(dates: seq<Date>, stocks: seq<string>, closes: seq<seq<real>>,
                     indexName: string, indexClose: seq<real>)
  {
    && Downloads(dates, stocks, closes, indexClose) && UsablePrices(closes, indexClose)
    && |dates| > 0 && CleanSelection(stocks, indexName)
  }

  /** The assembled prices of a clean run: the stocks in selection order, then the index. */
  function SelectionPrices(dates: seq<Date>, stocks: seq<string>, closes: seq<seq<real>>,
                           indexName: string, indexClose: seq<real>): Table
  {
    Table(dates, stocks + [indexName], closes + [indexClose])
  }

  lemma SelectionPricesUsable(dates: seq<Date>, stocks: seq<string>, closes: seq<seq<real>>,
                              indexName: string, indexClose: seq<real>)
    requires CleanRun(dates, stocks, closes, indexName, indexClose)
    ensures Assembled(dates, stocks, closes, indexName, indexClose)
         == Ok(SelectionPrices(dates, stocks, closes, indexName, indexClose))
    ensures PagePrices(SelectionPrices(dates, stocks, closes, indexName, indexClose), indexName)
    ensures !NormalizeRaises(SelectionPrices(dates, stocks, closes, indexName, indexClose))
  {
    AssembledColumnOrder(dates, stocks, closes, indexName, indexClose);
    AssembledUsable(dates, stocks, closes, indexName, indexClose);
  }

  /** The daily returns of a clean run (main.py line 68). */
  function SelectionDaily(dates: seq<Date>, stocks: seq<string>, closes: seq<seq<real>>,
                          indexName: string, indexClose: seq<real>): (daily: Table)
    requires CleanRun(dates, stocks, closes, indexName, indexClose)
    ensures PageReturns(daily, indexName) && daily.names == stocks + [indexName]
  {
    SelectionPricesUsable(dates, stocks, closes, indexName, indexClose);
    DailyReturns(SelectionPrices(dates, stocks, closes, indexName, indexClose))
  }

  lemma SelectionNamesDistinct(stocks: seq<string>, indexName: string)
    requires CleanSelection(stocks, indexName)
    ensures Distinct(stocks + [indexName])
  {
    var names := stocks + [indexName];
    forall i, j | 0 <= i < j < |names| ensures names[i] != names[j] {
      if j == |stocks| {
        assert names[i] in stocks;
      }
    }
  }

  /** The index column of a clean run's daily returns holds the index's daily returns. */
  lemma SelectionIndexColumn(dates: seq<Date>, stocks: seq<string>, closes: seq<seq<real>>,
                             indexName: string, indexClose: seq<real>)
    requires CleanRun(dates, stocks, closes, indexName, indexClose)
    ensures ColumnOf(SelectionDaily(dates, stocks, closes, indexName, indexClose), indexName)
         == ReturnColumn(indexClose)
  {
    SelectionNamesDistinct(stocks, indexName);
    IndexOfDistinct(stocks + [indexName], |stocks|);
  }

  /** Column k of a clean run's daily returns holds stock k's daily returns. */
  lemma SelectionStockColumn(dates: seq<Date>, stocks: seq<string>, closes: seq<seq<real>>,
                             indexName: string, indexClose: seq<real>, k: nat)
    requires CleanRun(dates, stocks, closes, indexName, indexClose) && k < |stocks|
    ensures closes[k] in closes
    ensures ColumnOf(SelectionDaily(dates, stocks, closes, indexName, indexClose), stocks[k])
         == ReturnColumn(closes[k])
  {
    SelectionNamesDistinct(stocks, indexName);
    IndexOfDistinct(stocks + [indexName], k);
  }

  /** Whether the fit of stock k's daily returns on the index's succeeds. */
  predicate FitOk(closes: seq<seq<real>>, indexClose: seq<real>, fit: Fitter, k: nat)
    requires k < |closes| && UsableColumn(closes[k]) && UsableColumn(indexClose)
    requires |closes[k]| > 0 && |indexClose| > 0
  {
    fit(ReturnColumn(indexClose), ReturnColumn(closes[k])).Some?
  }

  /** The beta of stock k: the slope of its daily returns on the index's. */
  function SelectedBeta(closes: seq<seq<real>>, indexClose: seq<real>, fit: Fitter, k: nat): real
    requires k < |closes| && UsableColumn(closes[k]) && UsableColumn(indexClose)
    requires |closes[k]| > 0 && |indexClose| > 0
    requires FitOk(closes, indexClose, fit, k)
  {
    fit(ReturnColumn(indexClose), ReturnColumn(closes[k])).value.0
  }

  /** Every stock's fit on the index succeeds, over prices the page can divide by. */
  predicate AllFitsOk(closes: seq<seq<real>>, indexClose: seq<real>, fit: Fitter)
  {
    && UsableColumn(indexClose) && |indexClose| > 0
    && (forall k | 0 <= k < |closes| :: UsableColumn(closes[k]) && |closes[k]| > 0)
    && forall k | 0 <= k < |closes| :: FitOk(closes, indexClose, fit, k)
  }

  /** The beta dict built straight from the downloaded prices: one entry per stock, in order. */
  function FittedBetas(stocks: seq<string>, closes: seq<seq<real>>, indexClose: seq<real>, fit: Fitter): seq<Entry>
    requires |closes| == |stocks| && AllFitsOk(closes, indexClose, fit)
  {
    seq(|stocks|, k requires 0 <= k < |stocks| => Entry(stocks[k], SelectedBeta(closes, indexClose, fit, k)))
  }

  /** Each stock's `beta * rm`, built straight from the downloaded prices. */
  function FittedReturns(closes: seq<seq<real>>, indexClose: seq<real>, fit: Fitter): seq<real>
    requires AllFitsOk(closes, indexClose, fit)
  {
    seq(|closes|, k requires 0 <= k < |closes| => SelectedBeta(closes, indexClose, fit, k) * IndexReturn(indexClose))
  }

  /** The fit the page makes for stock k is the fit of its daily returns on the index's. */
  lemma SelectionFitAt(dates: seq<Date>, stocks: seq<string>, closes: seq<seq<real>>,
                       indexName: string, indexClose: seq<real>, fit: Fitter, k: nat)
    requires CleanRun(dates, stocks, closes, indexName, indexClose) && k < |stocks|
    ensures closes[k] in closes
    ensures CalculateBeta(SelectionDaily(dates, stocks, closes, indexName, indexClose), stocks[k], indexName, fit).Ok?
        <==> FitOk(closes, indexClose, fit, k)
    ensures FitOk(closes, indexClose, fit, k) ==>
      StockBeta(SelectionDaily(dates, stocks, closes, indexName, indexClose), stocks, indexName, fit, k)
        == SelectedBeta(closes, indexClose, fit, k)
  {
    SelectionStockColumn(dates, stocks, closes, indexName, indexClose, k);
    SelectionIndexColumn(dates, stocks, closes, indexName, indexClose);
  }

  /** Over a clean run every fit the page makes succeeds exactly when the fit
      of the downloaded prices' daily returns does. */
  lemma SelectionFitsOk(dates: seq<Date>, stocks: seq<string>, closes: seq<seq<real>>,
                        indexName: string, indexClose: seq<real>, fit: Fitter)
    requires CleanRun(dates, stocks, closes, indexName, indexClose)
    ensures forall k | 0 <= k < |stocks| :: UsableColumn(closes[k]) && |closes[k]| > 0
    ensures (forall k | 0 <= k < |stocks| ::
               CalculateBeta(SelectionDaily(dates, stocks, closes, indexName, indexClose), stocks[k], indexName, fit).Ok?)
        <==> forall k | 0 <= k < |stocks| :: FitOk(closes, indexClose, fit, k)
  {
    var daily := SelectionDaily(dates, stocks, closes, indexName, indexClose);
    forall k | 0 <= k < |stocks|
      ensures closes[k] in closes
      ensures CalculateBeta(daily, stocks[k], indexName, fit).Ok? <==> FitOk(closes, indexClose, fit, k)
    {
      SelectionFitAt(dates, stocks, closes, indexName, indexClose, fit, k);
    }
  }

  /** When every fit succeeds, the beta table computed from the daily-return
      frame is the one computed from the downloaded prices directly. */
  lemma SelectionBetasAgree(dates: seq<Date>, stocks: seq<string>, closes: seq<seq<real>>,
                            indexName: string, indexClose: seq<real>, fit: Fitter)
    requires CleanRun(dates, stocks, closes, indexName, indexClose)
    requires forall k | 0 <= k < |stocks| ::
      CalculateBeta(SelectionDaily(dates, stocks, closes, indexName, indexClose), stocks[k], indexName, fit).Ok?
    ensures forall k | 0 <= k < |stocks| :: closes[k] in closes && FitOk(closes, indexClose, fit, k)
    ensures SelectionBetas(SelectionDaily(dates, stocks, closes, indexName, indexClose), stocks, indexName, fit)
         == FittedBetas(stocks, closes, indexClose, fit)
  {
    var daily := SelectionDaily(dates, stocks, closes, indexName, indexClose);
    var b := SelectionBetas(daily, stocks, indexName, fit);
    forall k | 0 <= k < |stocks|
      ensures closes[k] in closes && FitOk(closes, indexClose, fit, k)
      ensures b[k] == Entry(stocks[k], SelectedBeta(closes, indexClose, fit, k))
    {
      SelectionFitAt(dates, stocks, closes, indexName, indexClose, fit, k);
    }
  }

  /** When every fit succeeds, `beta * rm` computed from the daily-return
      frame is the one computed from the downloaded prices directly. */
  lemma SelectionReturnsAgree(dates: seq<Date>, stocks: seq<string>, closes: seq<seq<real>>,
                              indexName: string, indexClose: seq<real>, fit: Fitter)
    requires CleanRun(dates, stocks, closes, indexName, indexClose)
    requires forall k | 0 <= k < |stocks| ::
      CalculateBeta(SelectionDaily(dates, stocks, closes, indexName, indexClose), stocks[k], indexName, fit).Ok?
    ensures forall k | 0 <= k < |stocks| :: closes[k] in closes && FitOk(closes, indexClose, fit, k)
    ensures seq(|stocks|, k requires 0 <= k < |stocks| =>
               StockBeta(SelectionDaily(dates, stocks, closes, indexName, indexClose), stocks, indexName, fit, k)
               * MarketReturn(SelectionDaily(dates, stocks, closes, indexName, indexClose), indexName))
         == FittedReturns(closes, indexClose, fit)
  {
    var daily := SelectionDaily(dates, stocks, closes, indexName, indexClose);
    SelectionIndexColumn(dates, stocks, closes, indexName, indexClose);
    var rm := MarketReturn(daily, indexName);
    assert rm == IndexReturn(indexClose);
    forall k | 0 <= k < |stocks|
      ensures closes[k] in closes && FitOk(closes, indexClose, fit, k)
    {
      SelectionFitAt(dates, stocks, closes, indexName, indexClose, fit, k);
    }
    var lhs := seq(|stocks|, k requires 0 <= k < |stocks| => StockBeta(daily, stocks, indexName, fit, k) * rm);
    var rhs := FittedReturns(closes, indexClose, fit);
    forall k | 0 <= k < |stocks| ensures lhs[k] == rhs[k] {
      SelectionFitAt(dates, stocks, closes, indexName, indexClose, fit, k);
    }
    assert lhs == rhs;
  }

  /** For a selection of distinct tickers, none called "Date" or like the
      index column, over at least one trading day: the page reaches the return
      table exactly when every stock's fit succeeds; the beta table then has
      one row per selected stock in selection order, and the return table pairs
      `stocks_list` with `beta * rm` of the same stock on every row. */
  lemma SelectionLinesUp(index: string, dates: seq<Date>, stocks: seq<string>, closes: seq<seq<real>>,
                         indexClose: seq<real>, fit: Fitter)
    requires CleanRun(dates, stocks, closes, IndexName(index), indexClose)
    ensures forall k | 0 <= k < |stocks| :: UsableColumn(closes[k]) && |closes[k]| > 0
    ensures var page := PageOf(index, dates, stocks, closes, indexClose, fit);
      && (page.message == None <==> forall k | 0 <= k < |stocks| :: FitOk(closes, indexClose, fit, k))
      && (page.message == None ==>
            page.panels[2..] == [BetaTable(FittedBetas(stocks, closes, indexClose, fit)),
                                 ReturnTable(stocks, FittedReturns(closes, indexClose, fit))])
  {
    var indexName := IndexName(index);
    SelectionPricesUsable(dates, stocks, closes, indexName, indexClose);
    var prices := SelectionPrices(dates, stocks, closes, indexName, indexClose);
    var daily := SelectionDaily(dates, stocks, closes, indexName, indexClose);
    var shown := [PriceTable(prices), NormalizedChart(Normalized(prices))];
    assert PageOf(index, dates, stocks, closes, indexClose, fit) == BetasPage(shown, daily, stocks, indexName, fit);
    BetasPageLinesUp(shown, daily, stocks, indexName, fit);
    SelectionFitsOk(dates, stocks, closes, indexName, indexClose, fit);
    if forall k | 0 <= k < |stocks| :: CalculateBeta(daily, stocks[k], indexName, fit).Ok? {
      SelectionBetasAgree(dates, stocks, closes, indexName, indexClose, fit);
      SelectionReturnsAgree(dates, stocks, closes, indexName, indexClose, fit);
    }
  }
}
