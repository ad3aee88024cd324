/** The dividend stage of process_csv: `Value` summed per `Symbol` over the
    rows whose `Sub Type` is "Dividend", over the whole ledger. */
module Dividends {
  import opened Ledger

  predicate IsDividend(r: Row)
  {
    r.subType == Some("Dividend")
  }

  /** The stage runs only when all three columns it reads exist. */
  predicate DividendColumnsPresent(t: Table)
  {
    HasColumn(t, SubTypeColumn) && HasColumn(t, SymbolColumn) && HasColumn(t, ValueColumn)
  }

  /** `float(row['Value'])` succeeds on every dividend row. */
  predicate ValuesConvert(rows: seq<Row>)
  {
    forall i :: 0 <= i < |rows| && IsDividend(rows[i]) ==> rows[i].value.Some?
  }

  /** The symbols that carry at least one dividend row. */
  function DividendSymbols(rows: seq<Row>): set<Symbol>
  {
    set i | 0 <= i < |rows| && IsDividend(rows[i]) :: rows[i].symbol
  }

  /** Sum of `Value` over the dividend rows of symbol `s`, signs as stored. */
  function DividendTotal(rows: seq<Row>, s: Symbol): real
    requires ValuesConvert(rows)
  {
    if rows == [] then 0.0
    else
      var r := rows[|rows| - 1];
      DividendTotal(rows[..|rows| - 1], s) + (if IsDividend(r) && r.symbol == s then r.value.value else 0.0)
  }

  /** The total over a ledger made of two parts is the sum of the parts'
      totals: no row is counted twice or lost. */
  lemma {:induction false} DividendTotalSplits(a: seq<Row>, b: seq<Row>, s: Symbol)
    requires ValuesConvert(a + b)
    ensures ValuesConvert(a) && ValuesConvert(b)
    ensures DividendTotal(a + b, s) == DividendTotal(a, s) + DividendTotal(b, s)
  {
    assert forall i :: 0 <= i < |a| ==> (a + b)[i] == a[i];
    assert forall i :: 0 <= i < |b| ==> (a + b)[|a| + i] == b[i];
    if b != [] {
      var b' := b[..|b| - 1];
      assert (a + b)[..|a + b| - 1] == a + b';
      DividendTotalSplits(a, b', s);
    } else {
      assert a + b == a;
    }
  }

  /** A symbol without dividend rows totals zero. */
  lemma {:induction false} NoDividendsTotalZero(rows: seq<Row>, s: Symbol)
    requires ValuesConvert(rows) && s !in DividendSymbols(rows)
    ensures DividendTotal(rows, s) == 0.0
  {
    if rows != [] {
      var init := rows[..|rows| - 1];
      assert DividendSymbols(init) <= DividendSymbols(rows) by {
        forall x | x in DividendSymbols(init) ensures x in DividendSymbols(rows) {
          var i :| 0 <= i < |init| && IsDividend(init[i]) && init[i].symbol == x;
          assert rows[i] == init[i];
        }
      }
      NoDividendsTotalZero(init, s);
      assert IsDividend(rows[|rows| - 1]) ==> rows[|rows| - 1].symbol in DividendSymbols(rows);
    }
  }

  /** What one more row does to the dividend totals. */
  lemma DividendStep(rows: seq<Row>, i: nat)
    requires i < |rows| && ValuesConvert(rows[..i])
    requires IsDividend(rows[i]) ==> rows[i].value.Some?
    ensures ValuesConvert(rows[..i + 1])
    ensures DividendSymbols(rows[..i + 1]) ==
              DividendSymbols(rows[..i]) + (if IsDividend(rows[i]) then {rows[i].symbol} else {})
    ensures forall s :: DividendTotal(rows[..i + 1], s) == DividendTotal(rows[..i], s) +
              (if IsDividend(rows[i]) && rows[i].symbol == s then rows[i].value.value else 0.0)
  {
    assert rows[..i + 1][..i] == rows[..i];
  }

  /** Lines 57-66: the loop over the dividend rows filling `symbol_dividends`.
      `float(row['Value'])` is outside any `try`, so a value that does not
      convert raises out of process_csv. */
  method SumDividends(t: Table) returns (r: Result<map<Symbol, real>>)
    ensures !DividendColumnsPresent(t) ==> r == Success(map[])
    ensures DividendColumnsPresent(t) && !ValuesConvert(t.rows) ==> r == Failure(ValueError)
    ensures DividendColumnsPresent(t) && ValuesConvert(t.rows) ==>
              r.Success? && r.value.Keys == DividendSymbols(t.rows) &&
              forall s :: s in r.value ==> r.value[s] == DividendTotal(t.rows, s)
  {
    var symbolDividends: map<Symbol, real> := map[];
    if !DividendColumnsPresent(t) {
      return Success(symbolDividends);
    }
    var rows := t.rows;
    var i := 0;
    while i < |rows|
      invariant i <= |rows|
      invariant ValuesConvert(rows[..i])
      invariant symbolDividends.Keys == DividendSymbols(rows[..i])
      invariant forall s :: s in symbolDividends ==> symbolDividends[s] == DividendTotal(rows[..i], s)
    {
      var row := rows[i];
      if IsDividend(row) {
        var symbol := row.symbol;
        if row.value.None? {
          return Failure(ValueError);
        }
        var value := row.value.value;
        if symbol in symbolDividends {
          symbolDividends := symbolDividends[symbol := symbolDividends[symbol] + value];
        } else {
          NoDividendsTotalZero(rows[..i], symbol);
          symbolDividends := symbolDividends[symbol := value];
        }
      }
      DividendStep(rows, i);
      i := i + 1;
    }
    assert rows[..i] == rows;
    return Success(symbolDividends);
  }
}
