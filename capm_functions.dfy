/** The transform library of the dashboard: price normalisation, daily
    percentage returns, the beta/alpha regression and the compound-growth
    projection. Prices and returns are `real`s, an idealisation of the
    floating-point numbers the library computes with. */
module CapmFunctions {
  import opened Frames

  // ---------------------------------------------------------------- normalize

  /** Every value column that has a first entry has a non-zero one. */
  predicate FirstEntriesNonZero(t: Table)
  {
    forall c | 0 <= c < |t.cols| :: |t.cols[c]| > 0 ==> t.cols[c][0] != 0.0
  }

  /** `normalize` reads `df[i][0]` of the first value column; on a frame with
      value columns but no rows that label does not exist. */
  predicate NormalizeRaises(t: Table)
  {
    |t.names| > 0 && |t.dates| == 0
  }

  /** `x / x[0]`: the column rescaled so that it starts at 1. */
  function NormalizedColumn(x: seq<real>): (r: seq<real>)
    requires |x| > 0 && x[0] != 0.0
    ensures |r| == |x| && r[0] == 1.0
  {
    seq(|x|, i requires 0 <= i < |x| => x[i] / x[0])
  }

  /** The table `normalize` returns: the Date column and the labels as they
      were, every value column rescaled by its own first entry. */
  function Normalized(t: Table): (r: Table)
    requires WellFormed(t) && !NormalizeRaises(t) && FirstEntriesNonZero(t)
    ensures WellFormed(r) && r.dates == t.dates && r.names == t.names
    ensures forall c | 0 <= c < |r.cols| :: r.cols[c][0] == 1.0
  {
    Table(t.dates, t.names, seq(|t.cols|, c requires 0 <= c < |t.cols| => NormalizedColumn(t.cols[c])))
  }

  /** `normalize(df_2)`: copies the frame, then replaces each value column of
      the copy, left to right, by that column divided by its first entry. The
      argument is left as it was. */
  method Normalize(src: DataFrame) returns (r: Result<DataFrame>)
    requires src.Valid() && FirstEntriesNonZero(src.Value())
    ensures r.Raised? <==> NormalizeRaises(src.Value())
    ensures r.Raised? ==> r.error == KeyError
    ensures r.Ok? ==> fresh(r.value) && r.value.Valid() && r.value.Value() == Normalized(src.Value())
  {
    var df := src.Copy();
    for c := 0 to |src.names|
      invariant fresh(df) && df.Valid()
      invariant df.dates == src.dates && df.names == src.names && |df.cols| == |src.cols|
      invariant forall k | 0 <= k < c :: |src.cols[k]| > 0 && df.cols[k] == NormalizedColumn(src.cols[k])
      invariant forall k | c <= k < |src.cols| :: df.cols[k] == src.cols[k]
    {
      var x := df.cols[c];
      if |x| == 0 {
        return Raised(KeyError);
      }
      df.SetColumn(c, NormalizedColumn(x));
    }
    assert |src.names| > 0 ==> |src.cols[0]| > 0;
    r := Ok(df);
  }

  lemma {:induction false} NormalizedColumnFixedPoint(x: seq<real>)
    requires |x| > 0 && x[0] != 0.0
    ensures NormalizedColumn(NormalizedColumn(x)) == NormalizedColumn(x)
  {
    var y := NormalizedColumn(x);
    forall i | 0 <= i < |x| ensures NormalizedColumn(y)[i] == y[i] {
      assert y[0] == 1.0;
    }
  }

  /** Normalising an already normalised table changes nothing. */
  lemma {:induction false} NormalizeIdempotent(t: Table)
    requires WellFormed(t) && !NormalizeRaises(t) && FirstEntriesNonZero(t)
    ensures FirstEntriesNonZero(Normalized(t)) && !NormalizeRaises(Normalized(t))
    ensures Normalized(Normalized(t)) == Normalized(t)
  {
    var n := Normalized(t);
    forall c | 0 <= c < |t.cols| ensures Normalized(n).cols[c] == n.cols[c] {
      NormalizedColumnFixedPoint(t.cols[c]);
    }
  }

  /** `k * x`: a price column expressed in other units. */
  function Scaled(x: seq<real>, k: real): (r: seq<real>)
    ensures |r| == |x|
  {
    seq(|x|, i requires 0 <= i < |x| => k * x[i])
  }

  /** A normalised column does not depend on the unit the prices are quoted in. */
  lemma {:induction false} NormalizedColumnIgnoresScale(x: seq<real>, k: real)
    requires |x| > 0 && x[0] != 0.0 && k != 0.0
    ensures Scaled(x, k)[0] != 0.0
    ensures NormalizedColumn(Scaled(x, k)) == NormalizedColumn(x)
  {
    var y := Scaled(x, k);
    forall i | 0 <= i < |x| ensures NormalizedColumn(y)[i] == NormalizedColumn(x)[i] {
      calc {
        NormalizedColumn(y)[i];
        (k * x[i]) / (k * x[0]);
        { assert (k * x[i]) / (k * x[0]) * (k * x[0]) == k * x[i]; }
        x[i] / x[0];
      }
    }
  }

  // ------------------------------------------------------------- daily_return

  /** `(cur - prev) / prev * 100`: the percentage change from one day to the next. */
  function PercentChange(prev: real, cur: real): real
    requires prev != 0.0
  {
    (cur - prev) / prev * 100.0
  }

  /** Every entry that is the base of a day-over-day change (all but the last) is non-zero. */
  predicate ReturnBasesNonZero(x: seq<real>)
  {
    forall j | 0 <= j < |x| - 1 :: x[j] != 0.0
  }

  /** A price column as `daily_return` leaves it: 0 in row 0, and in each later
      row the percentage change from the previous row's price. */
  function ReturnColumn(x: seq<real>): (r: seq<real>)
    requires |x| > 0 && ReturnBasesNonZero(x)
    ensures |r| == |x| && r[0] == 0.0
  {
    seq(|x|, j requires 0 <= j < |x| => if j == 0 then 0.0 else PercentChange(x[j - 1], x[j]))
  }

  predicate ReturnBasesNonZeroAll(t: Table)
  {
    forall c | 0 <= c < |t.cols| :: ReturnBasesNonZero(t.cols[c])
  }

  /** The table `daily_return` returns. */
  function DailyReturns(t: Table): (r: Table)
    requires WellFormed(t) && |t.dates| > 0 && ReturnBasesNonZeroAll(t)
    ensures WellFormed(r) && r.dates == t.dates && r.names == t.names
    ensures forall c | 0 <= c < |r.cols| :: r.cols[c][0] == 0.0
  {
    Table(t.dates, t.names, seq(|t.cols|, c requires 0 <= c < |t.cols| => ReturnColumn(t.cols[c])))
  }

  /** `daily_return(df)`: copies the frame; for each value column overwrites
      rows 1.. of the copy, one cell at a time, with the percentage change
      computed from the ORIGINAL frame's prices, then sets row 0 of the copy to
      0. The argument is left as it was. */
  method DailyReturn(src: DataFrame) returns (df: DataFrame)
    requires src.Valid() && |src.dates| > 0 && ReturnBasesNonZeroAll(src.Value())
    ensures fresh(df) && df.Valid() && df.Value() == DailyReturns(src.Value())
  {
    df := src.Copy();
    var n := |src.dates|;
    for c := 0 to |src.names|
      invariant fresh(df) && df.Valid()
      invariant df.dates == src.dates && df.names == src.names && |df.cols| == |src.cols|
      invariant forall k | 0 <= k < c :: df.cols[k] == ReturnColumn(src.cols[k])
      invariant forall k | c <= k < |src.cols| :: df.cols[k] == src.cols[k]
    {
      ghost var before := df.cols;
      for j := 1 to n
        invariant df.Valid()
        invariant df.dates == src.dates && df.names == src.names && |df.cols| == |src.cols|
        invariant forall k | 0 <= k < |src.cols| && k != c :: df.cols[k] == before[k]
        // the cells already written hold changes computed from the input alone
        invariant forall i | 1 <= i < j :: df.cols[c][i] == PercentChange(src.cols[c][i - 1], src.cols[c][i])
        invariant forall i | j <= i < n :: df.cols[c][i] == src.cols[c][i]
      {
        df.SetCell(c, j, PercentChange(src.cols[c][j - 1], src.cols[c][j]));
      }
      df.SetCell(c, 0, 0.0);
      assert df.cols[c] == ReturnColumn(src.cols[c]);
    }
  }

  /** A worked example: an index at 100, 110, 121 and a stock at 50, 55,
      60.5 both rise 10% a day. */
  lemma ReturnColumnExample()
    ensures ReturnColumn([100.0, 110.0, 121.0]) == [0.0, 10.0, 10.0]
    ensures ReturnColumn([50.0, 55.0, 60.5]) == [0.0, 10.0, 10.0]
  {
    var a := ReturnColumn([100.0, 110.0, 121.0]);
    assert a[1] == 10.0 && a[2] == 10.0;
    var b := ReturnColumn([50.0, 55.0, 60.5]);
    assert b[1] == 10.0 && b[2] == 10.0;
  }

  /** The price reached from `p` by compounding the returns of rows 1..j. */
  function Compounded(p: real, r: seq<real>, j: nat): real
    requires j < |r|
  {
    if j == 0 then p else Compounded(p, r, j - 1) * (1.0 + r[j] / 100.0)
  }

  /** Applying a day's percentage change to the previous price gives back the new price. */
  lemma GrowBack(p: real, q: real)
    requires p != 0.0
    ensures p * (1.0 + PercentChange(p, q) / 100.0) == q
  {
    calc {
      p * (1.0 + PercentChange(p, q) / 100.0);
      p + p * ((q - p) / p);
      { assert p * ((q - p) / p) == q - p; }
      q;
    }
  }

  /** Daily returns lose nothing but the starting price: compounding them from
      the first price gives back every price of the column. */
  lemma {:induction false} ReturnsRebuildPrices(x: seq<real>, j: nat)
    requires |x| > 0 && ReturnBasesNonZero(x) && j < |x|
    ensures Compounded(x[0], ReturnColumn(x), j) == x[j]
  {
    if j > 0 {
      ReturnsRebuildPrices(x, j - 1);
      assert ReturnColumn(x)[j] == PercentChange(x[j - 1], x[j]);
      GrowBack(x[j - 1], x[j]);
    }
  }

  lemma PercentChangeIgnoresScale(p: real, q: real, k: real)
    requires p != 0.0 && k != 0.0
    ensures k * p != 0.0 && PercentChange(k * p, k * q) == PercentChange(p, q)
  {
    assert k * q - k * p == k * (q - p);
    assert (k * (q - p)) / (k * p) == (q - p) / p;
  }

  lemma {:induction false} ScaledBasesNonZero(x: seq<real>, k: real)
    requires ReturnBasesNonZero(x) && k != 0.0
    ensures ReturnBasesNonZero(Scaled(x, k))
  {
    var y := Scaled(x, k);
    forall j | 0 <= j < |x| - 1 ensures y[j] != 0.0 {
      assert y[j] == k * x[j];
    }
  }

  lemma ScaledReturnAt(x: seq<real>, k: real, j: nat)
    requires |x| > 0 && ReturnBasesNonZero(x) && k != 0.0 && 1 <= j < |x|
    ensures ReturnBasesNonZero(Scaled(x, k))
    ensures ReturnColumn(Scaled(x, k))[j] == ReturnColumn(x)[j]
  {
    ScaledBasesNonZero(x, k);
    var y := Scaled(x, k);
    var p, q := x[j - 1], x[j];
    assert y[j - 1] == k * p && y[j] == k * q;
    PercentChangeIgnoresScale(p, q, k);
  }

  /** Rescaling a table's prices does not change its daily returns. */
  lemma {:induction false} ReturnColumnIgnoresScale(x: seq<real>, k: real)
    requires |x| > 0 && ReturnBasesNonZero(x) && k != 0.0
    ensures ReturnBasesNonZero(Scaled(x, k))
    ensures ReturnColumn(Scaled(x, k)) == ReturnColumn(x)
  {
    ScaledBasesNonZero(x, k);
    var y := Scaled(x, k);
    var a, b := ReturnColumn(y), ReturnColumn(x);
    forall j | 1 <= j < |x| ensures a[j] == b[j] {
      ScaledReturnAt(x, k, j);
    }
    assert a == b;
  }

  /** The daily returns of the normalised prices are those of the prices. */
  lemma {:induction false} DailyReturnsOfNormalized(t: Table)
    requires WellFormed(t) && |t.dates| > 0 && FirstEntriesNonZero(t) && ReturnBasesNonZeroAll(t)
    ensures ReturnBasesNonZeroAll(Normalized(t))
    ensures DailyReturns(Normalized(t)) == DailyReturns(t)
  {
    var n := Normalized(t);
    forall c | 0 <= c < |t.cols|
      ensures ReturnBasesNonZero(n.cols[c]) && ReturnColumn(n.cols[c]) == ReturnColumn(t.cols[c])
    {
      var x := t.cols[c];
      forall i | 0 <= i < |x| ensures n.cols[c][i] == Scaled(x, 1.0 / x[0])[i] {
        assert x[i] / x[0] == (1.0 / x[0]) * x[i];
      }
      assert n.cols[c] == Scaled(x, 1.0 / x[0]);
      ReturnColumnIgnoresScale(x, 1.0 / x[0]);
    }
  }

  // ----------------------------------------------------------- calculate_beta

  /** `np.polyfit(x, y, 1)`: the least-squares line through the points
      (x[i], y[i]) as (slope, intercept), or None where numpy raises. Its
      numerics are not part of this model; it is passed in. */
  type Fitter = (seq<real>, seq<real>) -> Option<(real, real)>

  /** `calculate_beta(df, stock, index_name)`: regresses the stock's daily
      returns on the index's; beta is the slope and alpha the intercept. A
      missing column raises KeyError, a failed fit FitError. */
  function CalculateBeta(t: Table, stock: string, indexName: string, fit: Fitter): (r: Result<(real, real)>)
    requires WellFormed(t) && stock != DateColumn && indexName != DateColumn
    ensures r.Raised? <==>
      || indexName !in t.names || stock !in t.names
      || fit(ColumnOf(t, indexName), ColumnOf(t, stock)).None?
    ensures r.Ok? ==> r.value == fit(ColumnOf(t, indexName), ColumnOf(t, stock)).value
  {
    if indexName !in t.names || stock !in t.names then Raised(KeyError)
    else
      match fit(ColumnOf(t, indexName), ColumnOf(t, stock))
      case None => Raised(FitError)
      case Some(ba) => Ok(ba)
  }

  // --------------------------------------------------------- calculate_amount

  function Pow(b: real, t: nat): real
  {
    if t == 0 then 1.0 else b * Pow(b, t - 1)
  }

  /** `p * (1 + r/100) ** t` before rounding. */
  function CompoundAmount(p: real, t: nat, r: real): (amount: real)
    ensures t == 0 || r == 0.0 ==> amount == p
    ensures p == 0.0 ==> amount == 0.0
  {
    PowOfOne(t);
    p * Pow(1.0 + r / 100.0, t)
  }

  function Abs(x: real): real
  {
    if x < 0.0 then -x else x
  }

  /** Python's `round` to an integer: the nearest integer, ties to the even one. */
  function RoundHalfEven(y: real): (n: int)
    ensures Abs(n as real - y) <= 0.5
    ensures y - y.Floor as real == 0.5 ==> n % 2 == 0
  {
    var f := y.Floor;
    var frac := y - f as real;
    if frac < 0.5 then f
    else if frac > 0.5 then f + 1
    else if f % 2 == 0 then f
    else f + 1
  }

  /** `round(x, 2)`: a whole number of hundredths within half a hundredth of `x`. */
  function RoundCents(x: real): (r: real)
    ensures (r * 100.0).Floor as real == r * 100.0
    ensures Abs(r - x) <= 0.005
  {
    RoundHalfEven(x * 100.0) as real / 100.0
  }

  /** No multiple of 0.01 is closer to `x` than `round(x, 2)`. */
  lemma RoundCentsNearest(x: real, k: int)
    ensures Abs(RoundCents(x) - x) <= Abs(k as real / 100.0 - x)
  {
    var y := x * 100.0;
    var n := RoundHalfEven(y);
    assert RoundCents(x) == n as real / 100.0;
    if k < n {
      assert k as real <= n as real - 1.0;
    } else if k > n {
      assert k as real >= n as real + 1.0;
    }
  }

  /** An amount already in whole hundredths is left as it is by rounding. */
  lemma RoundCentsOfCents(n: int)
    ensures RoundCents(n as real / 100.0) == n as real / 100.0
  {
    assert n as real / 100.0 * 100.0 == n as real;
  }

  /** `calculate_amount(p, t, r)`: the principal grown at r percent per period
      for t periods, rounded to hundredths. */
  function CalculateAmount(p: real, t: nat, r: real): (amount: real)
    ensures (amount * 100.0).Floor as real == amount * 100.0
    ensures Abs(amount - CompoundAmount(p, t, r)) <= 0.005
  {
    RoundCents(CompoundAmount(p, t, r))
  }

  lemma {:induction false} PowOfOne(t: nat)
    ensures Pow(1.0, t) == 1.0
  {
    if t > 0 {
      PowOfOne(t - 1);
    }
  }

  /** No periods, or no growth, leave the principal as it was (up to rounding). */
  lemma AmountWithoutGrowth(p: real, t: nat, r: real)
    requires t == 0 || r == 0.0
    ensures CalculateAmount(p, t, r) == RoundCents(p)
  {
    if t > 0 {
      PowOfOne(t);
    }
  }

  /** Nothing invested grows to nothing. */
  lemma AmountOfNothing(t: nat, r: real)
    ensures CalculateAmount(0.0, t, r) == 0.0
  {
    RoundCentsOfCents(0);
  }

  /** One more period multiplies the unrounded amount by the growth factor. */
  lemma {:induction false} AmountOneMorePeriod(p: real, t: nat, r: real)
    ensures CompoundAmount(p, t + 1, r) == CompoundAmount(p, t, r) * (1.0 + r / 100.0)
  {
    var g := 1.0 + r / 100.0;
    assert Pow(g, t + 1) == g * Pow(g, t);
  }

  lemma AmountExamples()
    ensures CalculateAmount(1000.0, 1, 10.0) == 1100.0
    ensures CalculateAmount(1000.0, 2, 0.0) == 1000.0
    ensures CalculateAmount(0.0, 5, 100.0) == 0.0
  {
    RoundCentsOfCents(110000);
    AmountWithoutGrowth(1000.0, 2, 0.0);
    RoundCentsOfCents(100000);
    AmountOfNothing(5, 100.0);
  }

  /** Prices that rise by the same percentage every day follow exactly the
      unrounded `calculate_amount` curve from the first price. */
  lemma {:induction false} ConstantReturnsAreCompoundGrowth(x: seq<real>, rate: real, j: nat)
    requires |x| > 0 && ReturnBasesNonZero(x) && j < |x|
    requires forall i | 1 <= i < |x| :: ReturnColumn(x)[i] == rate
    ensures x[j] == CompoundAmount(x[0], j, rate)
  {
    if j > 0 {
      ConstantReturnsAreCompoundGrowth(x, rate, j - 1);
      assert ReturnColumn(x)[j] == PercentChange(x[j - 1], x[j]) == rate;
      GrowBack(x[j - 1], x[j]);
      AmountOneMorePeriod(x[0], j - 1, rate);
    }
  }
}
