/** `get_equity_symbols`: the distinct symbols of the `Equity` rows, in the
    order in which they first appear. */
module EquitySymbols {
  import opened Ledger

  /** Some row of `rows` is an `Equity` row of symbol `s`. */
  predicate HasEquityRow(rows: seq<Row>, s: Symbol)
  {
    exists i :: 0 <= i < |rows| && OfType(rows[i], EquityType) && rows[i].symbol == s
  }

  /** The position in the ledger of the first `Equity` row of symbol `s`. */
  function FirstEquityRow(rows: seq<Row>, s: Symbol): (k: nat)
    requires HasEquityRow(rows, s)
    ensures k < |rows| && OfType(rows[k], EquityType) && rows[k].symbol == s
    ensures forall m :: 0 <= m < k ==> !(OfType(rows[m], EquityType) && rows[m].symbol == s)
  {
    if OfType(rows[0], EquityType) && rows[0].symbol == s then 0
    else
      assert HasEquityRow(rows[1..], s) by {
        var i :| 0 <= i < |rows| && OfType(rows[i], EquityType) && rows[i].symbol == s;
        assert rows[1..][i - 1] == rows[i];
      }
      1 + FirstEquityRow(rows[1..], s)
  }

  /** An `Equity` row already present stays the first one of its symbol when
      rows are appended. */
  lemma FirstEquityRowAppend(rows: seq<Row>, r: Row, s: Symbol)
    requires HasEquityRow(rows, s)
    ensures HasEquityRow(rows + [r], s) && FirstEquityRow(rows + [r], s) == FirstEquityRow(rows, s)
  {
    var rows' := rows + [r];
    var k := FirstEquityRow(rows, s);
    assert rows'[k] == rows[k];
    var k' := FirstEquityRow(rows', s);
    assert k' <= k;
    assert rows'[k'] == rows[k'];
  }

  /** `data[data['Instrument Type'] == 'Equity']['Symbol']` */
  function EquityColumn(rows: seq<Row>): (xs: seq<Symbol>)
    ensures forall s :: s in xs <==> HasEquityRow(rows, s)
  {
    if rows == [] then []
    else
      var init, r := rows[..|rows| - 1], rows[|rows| - 1];
      assert forall i :: 0 <= i < |init| ==> init[i] == rows[i];
      EquityColumn(init) + (if OfType(r, EquityType) then [r.symbol] else [])
  }

  predicate NoDuplicates(xs: seq<Symbol>)
  {
    forall i, j :: 0 <= i < j < |xs| ==> xs[i] != xs[j]
  }

  /** `.unique()`: each value once, where it first occurs. */
  function Unique(xs: seq<Symbol>): (u: seq<Symbol>)
    ensures NoDuplicates(u)
    ensures forall x :: x in u <==> x in xs
  {
    if xs == [] then []
    else
      var init, x := xs[..|xs| - 1], xs[|xs| - 1];
      var u := Unique(init);
      assert xs == init + [x];
      if x in init then u else u + [x]
  }

  /** Position of the first occurrence of `x` in `xs`. */
  function FirstIndex(xs: seq<Symbol>, x: Symbol): (k: nat)
    requires x in xs
    ensures k < |xs| && xs[k] == x
    ensures forall m :: 0 <= m < k ==> xs[m] != x
  {
    if xs[0] == x then 0 else 1 + FirstIndex(xs[1..], x)
  }

  /** A value already present keeps its first position when more values are
      appended. */
  lemma FirstIndexAppend(xs: seq<Symbol>, y: Symbol, x: Symbol)
    requires x in xs
    ensures FirstIndex(xs + [y], x) == FirstIndex(xs, x)
  {
    var k, k' := FirstIndex(xs, x), FirstIndex(xs + [y], x);
    assert (xs + [y])[k] == x;
    assert k' < |xs| ==> xs[k'] == x;
  }

  /** The distinct values come out in the order of their first occurrence. */
  lemma {:induction false} UniqueKeepsFirstOrder(xs: seq<Symbol>)
    ensures forall i, j :: 0 <= i < j < |Unique(xs)| ==>
              FirstIndex(xs, Unique(xs)[i]) < FirstIndex(xs, Unique(xs)[j])
  {
    if xs != [] {
      var init, x := xs[..|xs| - 1], xs[|xs| - 1];
      assert xs == init + [x];
      UniqueKeepsFirstOrder(init);
      var u, u' := Unique(init), Unique(xs);
      forall i, j | 0 <= i < j < |u'|
        ensures FirstIndex(xs, u'[i]) < FirstIndex(xs, u'[j])
      {
        assert u'[i] == u[i];
        FirstIndexAppend(init, x, u[i]);
        if j < |u| {
          FirstIndexAppend(init, x, u[j]);
        } else {
          assert u'[j] == x && x !in init;
          assert FirstIndex(xs, x) == |init|;
        }
      }
    }
  }

  /** The selected column keeps the row order of the ledger: of two of its
      symbols, the one that occurs first in the column is the one whose first
      `Equity` row comes first. */
  lemma {:induction false} EquityColumnKeepsOrder(rows: seq<Row>, s: Symbol, s': Symbol)
    requires s in EquityColumn(rows) && s' in EquityColumn(rows)
    ensures FirstIndex(EquityColumn(rows), s) < FirstIndex(EquityColumn(rows), s') <==>
            FirstEquityRow(rows, s) < FirstEquityRow(rows, s')
  {
    var init, r := rows[..|rows| - 1], rows[|rows| - 1];
    assert rows == init + [r];
    var xi, xs := EquityColumn(init), EquityColumn(rows);
    if s in xi && s' in xi {
      EquityColumnKeepsOrder(init, s, s');
      FirstEquityRowAppend(init, r, s);
      FirstEquityRowAppend(init, r, s');
      if xs != xi {
        FirstIndexAppend(xi, r.symbol, s);
        FirstIndexAppend(xi, r.symbol, s');
      }
    } else if s in xi {
      FirstEquityRowAppend(init, r, s);
      assert xs == xi + [s'] && xs[|xi|] == s';
      assert FirstEquityRow(rows, s') == |init|;
    } else if s' in xi {
      FirstEquityRowAppend(init, r, s');
      assert xs == xi + [s] && xs[|xi|] == s;
      assert FirstEquityRow(rows, s) == |init|;
    } else {
      assert xs == xi + [r.symbol] && s == s';
    }
  }

  /** `get_equity_symbols(data)` */
  function GetEquitySymbols(t: Table): seq<Symbol>
  {
    if HasColumn(t, SymbolColumn) && HasColumn(t, InstrumentTypeColumn) then Unique(EquityColumn(t.rows))
    else []
  }

  /** The result is empty without both columns; otherwise it lists every
      symbol of an `Equity` row, each once, in first-appearance order. */
  lemma GetEquitySymbolsSpec(t: Table)
    ensures !(HasColumn(t, SymbolColumn) && HasColumn(t, InstrumentTypeColumn)) ==> GetEquitySymbols(t) == []
    ensures NoDuplicates(GetEquitySymbols(t))
    ensures HasColumn(t, SymbolColumn) && HasColumn(t, InstrumentTypeColumn) ==>
              forall s :: s in GetEquitySymbols(t) <==> HasEquityRow(t.rows, s)
    ensures HasColumn(t, SymbolColumn) && HasColumn(t, InstrumentTypeColumn) ==>
              var xs, u := EquityColumn(t.rows), GetEquitySymbols(t);
              forall i, j :: 0 <= i < j < |u| ==> FirstIndex(xs, u[i]) < FirstIndex(xs, u[j])
    ensures HasColumn(t, SymbolColumn) && HasColumn(t, InstrumentTypeColumn) ==>
              var u := GetEquitySymbols(t);
              forall i, j :: 0 <= i < j < |u| ==> FirstEquityRow(t.rows, u[i]) < FirstEquityRow(t.rows, u[j])
  {
    var xs := EquityColumn(t.rows);
    UniqueKeepsFirstOrder(xs);
    if HasColumn(t, SymbolColumn) && HasColumn(t, InstrumentTypeColumn) {
      var u := GetEquitySymbols(t);
      forall i, j | 0 <= i < j < |u|
        ensures FirstEquityRow(t.rows, u[i]) < FirstEquityRow(t.rows, u[j])
      {
        EquityColumnKeepsOrder(t.rows, u[i], u[j]);
      }
    }
  }
}
