/** `process_csv`: the three stages run one after the other over a ledger
    that pandas has read, and the nine values the function returns. */
module Engine {
  import opened Ledger
  import opened DateRange
  import opened Dividends
  import opened Positions

  /** What `pd.read_csv(file_path)` produced: the ledger, or the text of
      the exception it raised. */
  datatype CsvRead = Read(table: Table) | ReadFailed(message: string)

  /** The returned tuple of a run that completes. */
  datatype Summary = Summary(
    data: Table,
    dates: seq<DateTriple>,
    numEquityActions: nat,
    numEquityOptions: nat,
    positions: Dictionaries,
    symbolDividends: map<Symbol, real>)

  /** A completed run, the `(None, str(e), 0, 0, {}, ...)` tuple of a read
      failure, or an exception escaping process_csv. */
  datatype Outcome = Processed(summary: Summary) | ReadError(message: string) | Raised(exception: Exception)

  /** `pd.to_datetime(data['Date'])` does not raise. */
  predicate DatesParse(rows: seq<Row>)
  {
    forall i :: 0 <= i < |rows| ==> !rows[i].date.Unparseable?
  }

  /** The window `dates[0]`, `dates[1]`: the range of the first triple. */
  function FirstWindow(dates: seq<DateTriple>): Window
    requires dates != []
  {
    Window(dates[0].first, dates[0].last)
  }

  /** The exception line 70 raises before any row is filtered, if any:
      no `Date` column, a `Date` that does not parse, or no `dates[0]`. */
  function WindowError(t: Table, dates: seq<DateTriple>): Option<Exception>
  {
    if !HasColumn(t, DateColumn) then Some(KeyError(DateColumn))
    else if !DatesParse(t.rows) then Some(ValueError)
    else if dates == [] then Some(IndexError)
    else None
  }

  /** The in-window `Equity` rows that the fold visits. */
  function EquityData(t: Table): seq<Row>
    requires DateTriples(t.columns) != []
  {
    WindowRows(t.rows, EquityType, FirstWindow(DateTriples(t.columns)))
  }

  /** The exception process_csv lets escape on ledger `t`, stage by stage. */
  function Raises(t: Table): Option<Exception>
  {
    if DividendColumnsPresent(t) && !ValuesConvert(t.rows) then Some(ValueError)
    else if !HasColumn(t, InstrumentTypeColumn) then None
    else if WindowError(t, DateTriples(t.columns)).Some? then WindowError(t, DateTriples(t.columns))
    else FoldError(EquityData(t), HasColumn(t, SymbolColumn), HasColumn(t, QuantityColumn), HasColumn(t, AveragePriceColumn))
  }

  /** `symbol_dividends` as the dividend stage leaves it. */
  ghost predicate DividendsOf(m: map<Symbol, real>, t: Table)
  {
    if !DividendColumnsPresent(t) then m == map[]
    else
      && ValuesConvert(t.rows)
      && m.Keys == DividendSymbols(t.rows)
      && forall s :: s in m ==> m[s] == DividendTotal(t.rows, s)
  }

  /** `s` is what a completed run returns for ledger `t`. */
  ghost predicate Summarises(t: Table, s: Summary)
  {
    && s.data == t
    && s.dates == DateTriples(t.columns)
    && DividendsOf(s.symbolDividends, t)
    && if !HasColumn(t, InstrumentTypeColumn) then
         s.numEquityActions == 0 && s.numEquityOptions == 0 && s.positions == NoDictionaries
       else
         && s.dates != []
         && s.numEquityActions == |EquityData(t)|
         && s.numEquityOptions == |WindowRows(t.rows, EquityOptionType, FirstWindow(s.dates))|
         && Tallies(s.positions, EquityData(t))
  }

  /** Lines 24-94. */
  method ProcessCsv(read: CsvRead) returns (out: Outcome)
    ensures read.ReadFailed? ==> out == ReadError(read.message)
    ensures read.Read? && Raises(read.table).Some? ==> out == Raised(Raises(read.table).value)
    ensures read.Read? && Raises(read.table).None? ==> out.Processed? && Summarises(read.table, out.summary)
  {
    if read.ReadFailed? {
      return ReadError(read.message);
    }
    var data := read.table;
    var dates := ExtractDates(data.columns);
    var numEquityActions := 0;
    var numEquityOptions := 0;
    var positions := NoDictionaries;
    var symbolDividends := SumDividends(data);
    if symbolDividends.Failure? {
      return Raised(symbolDividends.error);
    }
    if HasColumn(data, InstrumentTypeColumn) {
      if !HasColumn(data, DateColumn) {
        return Raised(KeyError(DateColumn));
      }
      if !DatesParse(data.rows) {
        return Raised(ValueError);
      }
      if dates == [] {
        return Raised(IndexError);
      }
      var window := FirstWindow(dates);
      var equityData := WindowRows(data.rows, EquityType, window);
      numEquityActions := |equityData|;
      numEquityOptions := |WindowRows(data.rows, EquityOptionType, window)|;
      var folded := FoldPositions(equityData, HasColumn(data, SymbolColumn),
                                  HasColumn(data, QuantityColumn), HasColumn(data, AveragePriceColumn));
      if folded.Failure? {
        return Raised(folded.error);
      }
      positions := folded.value;
    }
    return Processed(Summary(data, dates, numEquityActions, numEquityOptions, positions, symbolDividends.value));
  }

  /** What every completed run guarantees: the date triples are ordered
      spans, the two window counts fit in the ledger, the four position
      dictionaries share their keys with positive counts and totals equal to
      stock plus income, and the counts add up to the in-window `Equity` rows
      whose numbers convert, which is at most `num_equity_actions`. */
  lemma SummaryFacts(t: Table, s: Summary)
    requires Summarises(t, s)
    ensures forall d :: d in s.dates ==> d.first <= d.last && d.days == d.last - d.first
    ensures s.numEquityActions + s.numEquityOptions <= |t.rows|
    ensures Aligned(s.positions)
    ensures forall k :: k in s.positions.totalSum ==>
              s.positions.counts[k] > 0 && s.positions.totalSum[k] == s.positions.totalStock[k] + s.positions.totalIncome[k]
    ensures Tally(s.positions.counts) <= s.numEquityActions
    ensures HasColumn(t, InstrumentTypeColumn) ==>
              (Tally(s.positions.counts) == s.numEquityActions <==>
               forall i :: 0 <= i < |EquityData(t)| ==> Converts(EquityData(t)[i]))
  {
    if HasColumn(t, InstrumentTypeColumn) {
      WindowsDisjoint(t.rows, EquityType, EquityOptionType, FirstWindow(s.dates));
      PositionsAgree(s.positions, EquityData(t));
      CountsBoundedByRows(s.positions, EquityData(t));
    } else {
      assert s.positions.counts == map[];
      assert Tally(s.positions.counts) == 0;
    }
  }

  // ---------------------------------------------------------------------
  // A worked ledger

  /** The `Date` column spans days 100 to 120; the other text columns hold
      no dates. `Quantity` is a text column because one of its cells does not
      convert; the example takes it that date coercion parses none of its
      cells. Were one of them read as a date, that column, which comes before
      `Date`, would give the first triple and so the window. */
  const ExampleDates: seq<Option<Day>> := [Some(100), Some(110), Some(120)]
  const NoDates: seq<Option<Day>> := [None, None, None]
  const ExampleOtherColumns := [
    Column(SymbolColumn, true, Some(NoDates)),
    Column(InstrumentTypeColumn, true, Some(NoDates)),
    Column(QuantityColumn, true, Some(NoDates)),
    Column(AveragePriceColumn, false, None)]

  /** Three rows: an `Equity` buy of ABC, an `Equity` row of ABC whose
      `Quantity` does not convert, and an `Equity Option` row. */
  const ExampleRows := [
    Row(At(100), "ABC", Some(EquityType), None, Some(10.0), Some(2.5), None),
    Row(At(110), "ABC", Some(EquityType), None, None, Some(3.0), None),
    Row(At(120), "XYZ", Some(EquityOptionType), None, Some(1.0), Some(4.0), None)]

  const ExampleTable := Table(ExampleOtherColumns + [Column(DateColumn, true, Some(ExampleDates))], ExampleRows)

  lemma ExampleDays()
    ensures Present(ExampleDates) == [100, 110, 120]
  {
  }

  lemma ExampleRange()
    ensures YieldsDates(Column(DateColumn, true, Some(ExampleDates)))
    ensures RangeOf(Column(DateColumn, true, Some(ExampleDates))) == DateTriple(100, 120, 20)
  {
    ExampleDays();
    var ds: seq<Day> := [100, 110, 120];
    assert Earliest(ds) in ds && Earliest(ds) <= ds[0];
    assert Latest(ds) in ds && ds[2] <= Latest(ds);
  }

  lemma ExampleNoOtherDates()
    ensures DateTriples(ExampleOtherColumns) == []
  {
    assert Present(NoDates[2..]) == [];
    assert Present(NoDates[1..]) == [];
    assert Present(NoDates) == [];
    NoTriplesIff(ExampleOtherColumns);
  }

  lemma ExampleTriples()
    ensures DateTriples(ExampleTable.columns) == [DateTriple(100, 120, 20)]
  {
    ExampleRange();
    ExampleNoOtherDates();
    var cols := ExampleTable.columns;
    assert cols[..|cols| - 1] == ExampleOtherColumns;
  }

  lemma ExampleColumns()
    ensures HasColumn(ExampleTable, DateColumn) && HasColumn(ExampleTable, InstrumentTypeColumn)
    ensures HasColumn(ExampleTable, SymbolColumn) && HasColumn(ExampleTable, QuantityColumn)
    ensures HasColumn(ExampleTable, AveragePriceColumn) && !HasColumn(ExampleTable, SubTypeColumn)
    ensures DatesParse(ExampleTable.rows)
  {
    var cols := ExampleTable.columns;
    assert cols[4].name == DateColumn && cols[1].name == InstrumentTypeColumn;
    assert cols[0].name == SymbolColumn && cols[2].name == QuantityColumn;
    assert cols[3].name == AveragePriceColumn;
  }

  lemma ExampleEquityWindow()
    ensures WindowRows(ExampleRows, EquityType, Window(100, 120)) == ExampleRows[..2]
  {
    var rows, w := ExampleRows, Window(100, 120);
    assert rows[..1][..0] == [] && rows[..2][..1] == rows[..1] && rows[..3] == rows;
    assert InWindow(rows[0], EquityType, w) && InWindow(rows[1], EquityType, w) && !InWindow(rows[2], EquityType, w);
    assert WindowRows(rows[..1], EquityType, w) == [rows[0]];
    assert WindowRows(rows[..2], EquityType, w) == [rows[0], rows[1]];
  }

  lemma ExampleOptionWindow()
    ensures WindowRows(ExampleRows, EquityOptionType, Window(100, 120)) == ExampleRows[2..]
  {
    var rows, w := ExampleRows, Window(100, 120);
    assert rows[..1][..0] == [] && rows[..2][..1] == rows[..1] && rows[..3] == rows;
    assert !InWindow(rows[0], EquityOptionType, w) && !InWindow(rows[1], EquityOptionType, w);
    assert InWindow(rows[2], EquityOptionType, w);
    assert WindowRows(rows[..1], EquityOptionType, w) == [];
    assert WindowRows(rows[..2], EquityOptionType, w) == [];
  }

  lemma ExampleFold()
    ensures HeldSymbols(ExampleRows[..2]) == {"ABC"}
    ensures CountOf(ExampleRows[..2], "ABC") == 1
    ensures SumOf(ExampleRows[..2], "ABC", StockAmount) == 10.0
    ensures SumOf(ExampleRows[..2], "ABC", IncomeAmount) == 25.0
    ensures SumOf(ExampleRows[..2], "ABC", SumAmount) == 35.0
  {
    var rs := ExampleRows[..2];
    assert Converts(rs[0]) && !Converts(rs[1]);
    assert rs[..1][..0] == [] && rs[..|rs| - 1] == rs[..1];
    assert CountOf(rs[..1], "ABC") == 1;
    assert AmountOf(rs[0], IncomeAmount) == 25.0;
    assert SumOf(rs[..1], "ABC", StockAmount) == 10.0;
    assert SumOf(rs[..1], "ABC", IncomeAmount) == 25.0;
    assert SumOf(rs[..1], "ABC", SumAmount) == 35.0;
  }

  /** What process_csv returns for the worked ledger: both `Equity` rows
      fall in the window but only the first enters the dictionaries. */
  const ExampleResult := Summary(
    ExampleTable, [DateTriple(100, 120, 20)], 2, 1,
    Dictionaries(map["ABC" := 1], map["ABC" := 10.0], map["ABC" := 25.0], map["ABC" := 35.0]),
    map[])

  lemma ExampleTallies()
    ensures Tallies(ExampleResult.positions, ExampleRows[..2])
  {
    ExampleFold();
  }

  /** The worked ledger raises nothing and summarises to `ExampleResult`,
      the only summary that fits it. */
  lemma ExampleSummary()
    ensures Raises(ExampleTable) == None
    ensures Summarises(ExampleTable, ExampleResult)
    ensures forall s :: Summarises(ExampleTable, s) ==> s == ExampleResult
  {
    ExampleColumns();
    ExampleTriples();
    ExampleEquityWindow();
    ExampleOptionWindow();
    ExampleTallies();
    assert DividendsOf(ExampleResult.symbolDividends, ExampleTable);
    assert EquityData(ExampleTable) == ExampleRows[..2];
    forall s | Summarises(ExampleTable, s)
      ensures s == ExampleResult
    {
      TalliesUnique(s.positions, EquityData(ExampleTable));
      TalliesUnique(ExampleResult.positions, EquityData(ExampleTable));
    }
  }
}
