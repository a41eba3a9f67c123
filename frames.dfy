/** The tables the dashboard computes with: pandas DataFrames of daily closing
    prices keyed by trading day. After `reset_index` the trading day is column 0,
    named "Date"; the value columns follow it, one per ticker. A `Table` is the
    value of such a frame; `DataFrame` is the mutable object that the dashboard
    copies, fills and overwrites in place. */
module Frames {

  /** A trading-day stamp. The model carries dates along and never inspects them. */
  type Date = int

  /** The name `reset_index` gives column 0. */
  const DateColumn: string := "Date"

  datatype Option<T> = None | Some(value: T)

  /** The exceptions the modelled code can raise. */
  datatype Exception =
    | KeyError    // a column or row label that does not exist
    | ValueError  // `reset_index` onto an existing column, or a list of the wrong length
    | FitError    // the least-squares fit gave up

  datatype Result<T> = Ok(value: T) | Raised(error: Exception)

  /** One downloaded column: a closing price per trading day. */
  datatype Series = Series(dates: seq<Date>, values: seq<real>)

  /** A frame after `reset_index`: the Date column, then named real-valued columns. */
  datatype Table = Table(dates: seq<Date>, names: seq<string>, cols: seq<seq<real>>)

  predicate Distinct(s: seq<string>)
  {
    forall i, j | 0 <= i < j < |s| :: s[i] != s[j]
  }

  /** Every column has one entry per row, and column labels are unique. */
  predicate WellFormed(t: Table)
  {
    && |t.names| == |t.cols|
    && Distinct(t.names)
    && forall c | 0 <= c < |t.cols| :: |t.cols[c]| == |t.dates|
  }

  /** `df.columns`: the Date column first, then the value columns in order. */
  function Columns(t: Table): (cols: seq<string>)
    ensures |cols| == |t.names| + 1 && cols[0] == DateColumn && cols[1..] == t.names
  {
    [DateColumn] + t.names
  }

  /** Position of the first occurrence of `x` in `s`. */
  function IndexOf(s: seq<string>, x: string): (k: nat)
    requires x in s
    ensures k < |s| && s[k] == x
    ensures forall j | 0 <= j < k :: s[j] != x
  {
    if s[0] == x then 0 else IndexOf(s[1..], x) + 1
  }

  lemma {:induction false} IndexOfDistinct(s: seq<string>, k: nat)
    requires Distinct(s) && k < |s|
    ensures IndexOf(s, s[k]) == k
  {
    var i := IndexOf(s, s[k]);
    assert s[i] == s[k];
  }

  /** `df[name]` for a value column that exists. */
  function ColumnOf(t: Table, name: string): (col: seq<real>)
    requires WellFormed(t) && name in t.names
    ensures |col| == |t.dates|
  {
    t.cols[IndexOf(t.names, name)]
  }

  /** A series may be stored into `t` when it lies on `t`'s rows, or when `t`
      is still empty (no rows and no columns) and takes the series' dates as
      its rows. A series on other dates would be realigned, which is not part
      of this model. */
  predicate CanAssign(t: Table, s: Series)
  {
    |s.values| == |s.dates| && (s.dates == t.dates || (t.names == [] && t.dates == []))
  }

  /** `df[name] = series`: an existing column of that name is replaced where it
      stands; otherwise the column is appended on the right. */
  function Assigned(t: Table, name: string, s: Series): (r: Table)
    requires WellFormed(t) && CanAssign(t, s)
    ensures WellFormed(r) && r.dates == s.dates
    ensures name in r.names && ColumnOf(r, name) == s.values
    ensures name in t.names ==> r.names == t.names
    ensures name !in t.names ==> r.names == t.names + [name]
    ensures forall y | y in t.names && y != name :: ColumnOf(r, y) == ColumnOf(t, y)
  {
    if name in t.names then
      var k := IndexOf(t.names, name);
      var r := Table(s.dates, t.names, t.cols[k := s.values]);
      IndexOfDistinct(t.names, k);
      r
    else
      var r := Table(s.dates, t.names + [name], t.cols + [s.values]);
      IndexOfDistinct(r.names, |t.names|);
      r
  }

  /** Assignment adds the one label and keeps every other; each column of the
      result is the assigned series or a column the frame already had, and
      every other column stays at its own position. */
  lemma AssignedColumns(t: Table, name: string, s: Series)
    requires WellFormed(t) && CanAssign(t, s)
    ensures forall x :: x in Assigned(t, name, s).names <==> x in t.names || x == name
    ensures forall c | 0 <= c < |Assigned(t, name, s).cols| ::
      Assigned(t, name, s).cols[c] == s.values || Assigned(t, name, s).cols[c] in t.cols
    ensures forall c | 0 <= c < |t.names| && t.names[c] != name ::
      Assigned(t, name, s).names[c] == t.names[c] && Assigned(t, name, s).cols[c] == t.cols[c]
  {
  }

  /** A pandas DataFrame whose columns the dashboard sets and whose cells it overwrites. */
  class DataFrame {
    var dates: seq<Date>
    var names: seq<string>
    var cols: seq<seq<real>>

    function Value(): Table
      reads this
    {
      Table(dates, names, cols)
    }

    predicate Valid()
      reads this
    {
      WellFormed(Value())
    }

    /** `pd.DataFrame()`: no rows and no columns. */
    constructor Empty()
      ensures Valid() && Value() == Table([], [], [])
    {
      dates, names, cols := [], [], [];
    }

    constructor Of(t: Table)
      requires WellFormed(t)
      ensures Valid() && Value() == t
    {
      dates, names, cols := t.dates, t.names, t.cols;
    }

    /** `df.copy()`: a new frame with the same contents; later writes to either do not reach the other. */
    method Copy() returns (d: DataFrame)
      requires Valid()
      ensures fresh(d) && d.Valid() && d.Value() == Value()
    {
      d := new DataFrame.Of(Value());
    }

    /** `df[name] = series` */
    method Assign(name: string, s: Series)
      requires Valid() && CanAssign(Value(), s)
      modifies this
      ensures Valid() && Value() == Assigned(old(Value()), name, s)
    {
      var r := Assigned(Value(), name, s);
      dates, names, cols := r.dates, r.names, r.cols;
    }

    /** `df[names[c]] = values`: replaces one whole column. */
    method SetColumn(c: nat, values: seq<real>)
      requires Valid() && c < |cols| && |values| == |dates|
      modifies this
      ensures Valid()
      ensures dates == old(dates) && names == old(names) && cols == old(cols)[c := values]
    {
      cols := cols[c := values];
    }

    /** `df[names[c]][j] = v`: overwrites one cell. */
    method SetCell(c: nat, j: nat, v: real)
      requires Valid() && c < |cols| && j < |dates|
      modifies this
      ensures Valid()
      ensures dates == old(dates) && names == old(names)
      ensures cols == old(cols)[c := old(cols)[c][j := v]]
    {
      cols := cols[c := cols[c][j := v]];
    }
  }
}
