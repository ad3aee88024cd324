/** The ledger as process_csv sees it once pandas has read the CSV file:
    the column headers (with what the bulk date parser makes of each column)
    and the rows, each cell already converted the way the code converts it. */
module Ledger {

  /** A calendar date as a day number. */
  type Day = int

  /** A ticker symbol, as the loader hands it over. */
  type Symbol = string

  datatype Option<+T> = None | Some(value: T)

  /** What `pd.to_datetime` without `errors='coerce'` makes of one cell of
      the `Date` column: a day, NaT for an empty cell, or a value that makes
      the conversion raise. */
  datatype DateCell = At(day: Day) | Blank | Unparseable

  /** One ledger row. A numeric field is `None` when `float(...)` of the cell
      raises `ValueError`; `instrumentType` and `subType` are `None` for an
      empty cell, which equals no string. A field whose column is absent is
      never looked at. */
  datatype Row = Row(
    date: DateCell,
    symbol: Symbol,
    instrumentType: Option<string>,
    subType: Option<string>,
    quantity: Option<real>,
    averagePrice: Option<real>,
    value: Option<real>)

  /** One column header. `isObject` is pandas' `dtype == 'object'`;
      `coercedDates` is `pd.to_datetime(column, errors='coerce')` cell by cell
      (`None` for NaT), or `None` when that call raises `ValueError`. */
  datatype Column = Column(name: string, isObject: bool, coercedDates: Option<seq<Option<Day>>>)

  datatype Table = Table(columns: seq<Column>, rows: seq<Row>)

  const DateColumn := "Date"
  const SymbolColumn := "Symbol"
  const InstrumentTypeColumn := "Instrument Type"
  const SubTypeColumn := "Sub Type"
  const QuantityColumn := "Quantity"
  const AveragePriceColumn := "Average Price"
  const ValueColumn := "Value"

  /** The `Instrument Type` values the equity stage selects. */
  const EquityType := "Equity"
  const EquityOptionType := "Equity Option"

  /** `data['Instrument Type'] == kind` holds for row `r`. */
  predicate OfType(r: Row, kind: string)
  {
    r.instrumentType == Some(kind)
  }

  /** `name in data.columns` */
  predicate HasColumn(t: Table, name: string)
  {
    exists c :: c in t.columns && c.name == name
  }

  /** The Python exceptions that can escape process_csv. */
  datatype Exception = KeyError(key: string) | IndexError | ValueError

  datatype Result<+T> = Success(value: T) | Failure(error: Exception)
}
