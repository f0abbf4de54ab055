/** The in-memory table the pipeline passes from stage to stage (a pandas DataFrame):
    a set of column names and an ordered sequence of rows. */
module Frame {

  datatype Option<T> = None | Some(value: T)

  /** A point in time, as pandas stores a datetime64 value: nanoseconds since the epoch. */
  datatype Instant = Instant(nanos: int)

  /** One cell. `Missing` is pandas' null (NaN / None / NaT). Numbers are exact reals:
      floating-point rounding is not modelled. */
  datatype Value =
    | Missing
    | Text(s: string)
    | Number(x: real)
    | Stamp(at: Instant)

  /** A row maps column names to cells; a name the map lacks reads as a null cell. */
  type Row = map<string, Value>

  /** Column order does not matter to validation, so the header is a set; row order is kept. */
  datatype Table = Table(columns: set<string>, rows: seq<Row>)

  /** Every row holds a cell, possibly null, for exactly the table's columns. */
  predicate WellFormed(t: Table)
  {
    forall i :: 0 <= i < |t.rows| ==> t.rows[i].Keys == t.columns
  }

  function Cell(r: Row, c: string): Value
  {
    if c in r then r[c] else Missing
  }

  /** How pandas turns text into a number or a timestamp when a schema coerces a column.
      The parsing itself is not part of this model, so it is a parameter. */
  datatype Parsers = Parsers(number: string -> Option<real>, date: string -> Option<Instant>)
}
