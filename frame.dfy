/** Cell values, rows and tables shared by the transform step and the report queries.

    A pandas data frame of loosely typed columns is modelled row by row: a row maps
    column names to cell values, and a column the row does not mention reads as
    missing, exactly as pandas fills a column absent from a record with NaN. */
module Frame {

  /** A cell of a data frame, or a value inside one raw JSON record. */
  datatype Value =
    | Missing                        // None, NaN, pd.NA or NaT: what pandas calls NA
    | Bool(b: bool)
    | Num(x: real)
    | Str(s: string)
    | List(items: seq<Value>)
    | Dict(fields: map<string, Value>)
    | Timestamp(t: int)              // a parsed release date

  datatype Option<T> = None | Some(value: T)

  /** The Python exceptions the modelled code can raise. */
  datatype PyError = KeyError(key: string) | TypeError | AttributeError

  /** A value, or the exception that aborted its computation. */
  datatype Result<T> = Ok(value: T) | Err(error: PyError) {
    predicate IsFailure() { Err? }

    function PropagateFailure<U>(): Result<U>
      requires Err?
    {
      Err(error)
    }

    function Extract(): T
      requires Ok?
    {
      value
    }
  }

  type Row = map<string, Value>

  /** `df[column]` at one row: a column the row lacks is NA. */
  function Cell(row: Row, column: string): Value {
    if column in row then row[column] else Missing
  }

  /** A frame: its column labels in order, and its rows. */
  datatype Table = Table(columns: seq<string>, rows: seq<Row>)

  /** `df[columns]` at one row: the row restricted to the given labels. */
  function Project(row: Row, columns: seq<string>): (r: Row)
    ensures r.Keys == set c | c in columns
    ensures forall c :: c in columns ==> r[c] == Cell(row, c)
  {
    map c | c in columns :: Cell(row, c)
  }

  /** `df[columns]`: every row restricted to the given labels, in order. */
  function ProjectRows(rows: seq<Row>, columns: seq<string>): (r: seq<Row>)
    ensures |r| == |rows|
    ensures forall i :: 0 <= i < |rows| ==> r[i] == Project(rows[i], columns)
  {
    seq(|rows|, i requires 0 <= i < |rows| => Project(rows[i], columns))
  }

  /** The real number in a numeric cell; any other cell counts as NA in sums and means. */
  function Number(v: Value): Option<real> {
    if v.Num? then Some(v.x) else None
  }
}
