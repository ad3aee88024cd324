/** The equity stage of process_csv: rows inside the window taken from the
    first date triple, the two window counts, and the fold of the in-window
    `Equity` rows into four per-symbol dictionaries. */
module Positions {
  import opened Ledger

  /** `dates[0]` and `dates[1]`, both bounds inclusive. */
  datatype Window = Window(first: Day, last: Day)

  /** Row `r` is of instrument type `kind` and its `Date` lies inside `w`;
      an empty date (NaT) compares false with both bounds. */
  predicate InWindow(r: Row, kind: string, w: Window)
  {
    OfType(r, kind) && r.date.At? && w.first <= r.date.day <= w.last
  }

  /** `data[(data['Instrument Type'] == kind) & (Date >= first) & (Date <= last)]` */
  function WindowRows(rows: seq<Row>, kind: string, w: Window): (rs: seq<Row>)
    ensures |rs| <= |rows|
    ensures forall r :: r in rs <==> r in rows && InWindow(r, kind, w)
  {
    if rows == [] then []
    else
      var r := rows[|rows| - 1];
      WindowRows(rows[..|rows| - 1], kind, w) + (if InWindow(r, kind, w) then [r] else [])
  }

  /** The filter keeps every copy of an in-window row and no copy of any
      other row, so `shape[0]` counts repeated rows each time. */
  lemma {:induction false} WindowRowsMultiplicity(rows: seq<Row>, kind: string, w: Window)
    ensures forall r :: multiset(WindowRows(rows, kind, w))[r] == if InWindow(r, kind, w) then multiset(rows)[r] else 0
  {
    if rows != [] {
      var init, r := rows[..|rows| - 1], rows[|rows| - 1];
      assert rows == init + [r];
      WindowRowsMultiplicity(init, kind, w);
    }
  }

  /** No row is in the windows of two different instrument types, so the
      two window counts together never exceed the number of rows. */
  lemma {:induction false} WindowsDisjoint(rows: seq<Row>, kind: string, kind': string, w: Window)
    requires kind != kind'
    ensures |WindowRows(rows, kind, w)| + |WindowRows(rows, kind', w)| <= |rows|
  {
    if rows != [] {
      WindowsDisjoint(rows[..|rows| - 1], kind, kind', w);
    }
  }

  /** Both float conversions of the row succeed. */
  predicate Converts(r: Row)
  {
    r.quantity.Some? && r.averagePrice.Some?
  }

  /** `quantity * average_price` of a converting row. */
  function Income(r: Row): real
    requires Converts(r)
  {
    r.quantity.value * r.averagePrice.value
  }

  // ---------------------------------------------------------------------
  // The dictionaries as sums over rows

  /** What a converting row adds to each of the three float dictionaries. */
  datatype Amount = StockAmount | IncomeAmount | SumAmount

  /** `quantity`, `income` or `quantity + income` of a converting row. */
  function AmountOf(r: Row, a: Amount): real
    requires Converts(r)
  {
    match a
    case StockAmount => r.quantity.value
    case IncomeAmount => Income(r)
    case SumAmount => r.quantity.value + Income(r)
  }

  /** The symbols of the rows that enter the dictionaries. */
  function HeldSymbols(rs: seq<Row>): set<Symbol>
  {
    set i | 0 <= i < |rs| && Converts(rs[i]) :: rs[i].symbol
  }

  /** Number of converting rows of symbol `s`. */
  function CountOf(rs: seq<Row>, s: Symbol): nat
  {
    if rs == [] then 0
    else
      var r := rs[|rs| - 1];
      CountOf(rs[..|rs| - 1], s) + (if Converts(r) && r.symbol == s then 1 else 0)
  }

  /** Sum of amount `a` over the converting rows of symbol `s`. */
  function SumOf(rs: seq<Row>, s: Symbol, a: Amount): real
  {
    if rs == [] then 0.0
    else
      var r := rs[|rs| - 1];
      SumOf(rs[..|rs| - 1], s, a) + (if Converts(r) && r.symbol == s then AmountOf(r, a) else 0.0)
  }

  /** Number of converting rows. */
  function ConvertedCount(rs: seq<Row>): (n: nat)
    ensures n <= |rs|
    ensures n == |rs| <==> forall i :: 0 <= i < |rs| ==> Converts(rs[i])
  {
    if rs == [] then 0
    else
      var r := rs[|rs| - 1];
      assert forall i :: 0 <= i < |rs| - 1 ==> rs[..|rs| - 1][i] == rs[i];
      ConvertedCount(rs[..|rs| - 1]) + (if Converts(r) then 1 else 0)
  }

  /** `symbol_counts`, `symbol_total_stock`, `symbol_total_income`,
      `symbol_total_sum`. */
  datatype Dictionaries = Dictionaries(
    counts: map<Symbol, nat>,
    totalStock: map<Symbol, real>,
    totalIncome: map<Symbol, real>,
    totalSum: map<Symbol, real>)

  const NoDictionaries := Dictionaries(map[], map[], map[], map[])

  /** `m` holds the count of converting rows for exactly the held symbols. */
  ghost predicate CountsOf(m: map<Symbol, nat>, rs: seq<Row>)
  {
    m.Keys == HeldSymbols(rs) && forall s :: s in m ==> m[s] == CountOf(rs, s)
  }

  /** `m` holds the sum of amount `a` for exactly the held symbols. */
  ghost predicate SumsOf(m: map<Symbol, real>, rs: seq<Row>, a: Amount)
  {
    m.Keys == HeldSymbols(rs) && forall s :: s in m ==> m[s] == SumOf(rs, s, a)
  }

  /** The four dictionaries hold, for exactly the symbols with a converting
      row in `rs`, the count and the three sums over those rows. */
  ghost predicate Tallies(p: Dictionaries, rs: seq<Row>)
  {
    && CountsOf(p.counts, rs)
    && SumsOf(p.totalStock, rs, StockAmount)
    && SumsOf(p.totalIncome, rs, IncomeAmount)
    && SumsOf(p.totalSum, rs, SumAmount)
  }

  // ---------------------------------------------------------------------
  // The dictionaries as a fold, the way the loop builds them

  /** `d[s] += 1` for a present key, `d[s] = 1` for a new one. */
  function BumpCount(m: map<Symbol, nat>, s: Symbol): map<Symbol, nat>
  {
    if s in m then m[s := m[s] + 1] else m[s := 1]
  }

  /** `d[s] += x` for a present key, `d[s] = x` for a new one. */
  function Bump(m: map<Symbol, real>, s: Symbol, x: real): map<Symbol, real>
  {
    if s in m then m[s := m[s] + x] else m[s := x]
  }

  /** The four updates of lines 82-91 for one converting row. */
  function AddRow(p: Dictionaries, r: Row): Dictionaries
    requires Converts(r)
  {
    Dictionaries(BumpCount(p.counts, r.symbol),
              Bump(p.totalStock, r.symbol, AmountOf(r, StockAmount)),
              Bump(p.totalIncome, r.symbol, AmountOf(r, IncomeAmount)),
              Bump(p.totalSum, r.symbol, AmountOf(r, SumAmount)))
  }

  /** The four dictionaries have the same keys, as the loop keeps them. */
  predicate Aligned(p: Dictionaries)
  {
    p.counts.Keys == p.totalStock.Keys == p.totalIncome.Keys == p.totalSum.Keys
  }

  /** The dictionaries after folding `rs` from empty ones. */
  ghost function Folded(rs: seq<Row>): (p: Dictionaries)
    ensures Aligned(p)
  {
    if rs == [] then NoDictionaries
    else
      var p, r := Folded(rs[..|rs| - 1]), rs[|rs| - 1];
      if Converts(r) then AddRow(p, r) else p
  }

  // ---------------------------------------------------------------------
  // Properties of the sums

  /** Every dictionary total is stock plus income. */
  lemma {:induction false} SumIsStockPlusIncome(rs: seq<Row>, s: Symbol)
    ensures SumOf(rs, s, SumAmount) == SumOf(rs, s, StockAmount) + SumOf(rs, s, IncomeAmount)
  {
    if rs != [] {
      SumIsStockPlusIncome(rs[..|rs| - 1], s);
    }
  }

  lemma HeldSymbolsStep(rs: seq<Row>, r: Row)
    ensures HeldSymbols(rs + [r]) == HeldSymbols(rs) + (if Converts(r) then {r.symbol} else {})
  {
    var rs' := rs + [r];
    assert forall i :: 0 <= i < |rs| ==> rs'[i] == rs[i];
    assert rs'[|rs|] == r;
  }

  /** A symbol has a positive count exactly when it has a converting row. */
  lemma {:induction false} CountPositiveIff(rs: seq<Row>, s: Symbol)
    ensures CountOf(rs, s) > 0 <==> s in HeldSymbols(rs)
  {
    if rs != [] {
      var init, r := rs[..|rs| - 1], rs[|rs| - 1];
      assert rs == init + [r];
      CountPositiveIff(init, s);
      HeldSymbolsStep(init, r);
    }
  }

  /** A symbol without converting rows sums to zero. */
  lemma {:induction false} UnheldSymbolSumsZero(rs: seq<Row>, s: Symbol, a: Amount)
    requires s !in HeldSymbols(rs)
    ensures SumOf(rs, s, a) == 0.0
  {
    if rs != [] {
      var init, r := rs[..|rs| - 1], rs[|rs| - 1];
      assert rs == init + [r];
      HeldSymbolsStep(init, r);
      UnheldSymbolSumsZero(init, s, a);
    }
  }

  /** Counting one more row: `d[s] += 1` or `d[s] = 1` keeps the counts. */
  lemma BumpCountKeepsCounts(m: map<Symbol, nat>, rs: seq<Row>, r: Row)
    requires Converts(r) && CountsOf(m, rs)
    ensures CountsOf(BumpCount(m, r.symbol), rs + [r])
  {
    assert (rs + [r])[..|rs|] == rs;
    HeldSymbolsStep(rs, r);
    if r.symbol !in m {
      CountPositiveIff(rs, r.symbol);
    }
  }

  /** Adding one more row: `d[s] += x` or `d[s] = x` keeps the sums. */
  lemma BumpKeepsSums(m: map<Symbol, real>, rs: seq<Row>, r: Row, a: Amount)
    requires Converts(r) && SumsOf(m, rs, a)
    ensures SumsOf(Bump(m, r.symbol, AmountOf(r, a)), rs + [r], a)
  {
    assert (rs + [r])[..|rs|] == rs;
    HeldSymbolsStep(rs, r);
    if r.symbol !in m {
      UnheldSymbolSumsZero(rs, r.symbol, a);
    }
  }

  /** The loop's updates keep the dictionaries equal to the sums. */
  lemma AddRowTallies(p: Dictionaries, rs: seq<Row>, r: Row)
    requires Converts(r) && Tallies(p, rs)
    ensures Tallies(AddRow(p, r), rs + [r])
  {
    BumpCountKeepsCounts(p.counts, rs, r);
    BumpKeepsSums(p.totalStock, rs, r, StockAmount);
    BumpKeepsSums(p.totalIncome, rs, r, IncomeAmount);
    BumpKeepsSums(p.totalSum, rs, r, SumAmount);
  }

  /** A row whose `Quantity` or `Average Price` does not convert leaves the
      dictionaries correct without any update: it changes none of them. */
  lemma SkippedRowChangesNothing(p: Dictionaries, rs: seq<Row>, r: Row)
    requires !Converts(r) && Tallies(p, rs)
    ensures Tallies(p, rs + [r])
  {
    var rs' := rs + [r];
    assert rs'[..|rs|] == rs;
    HeldSymbolsStep(rs, r);
  }

  /** Folding the rows one at a time yields exactly the sums. */
  lemma {:induction false} FoldedTallies(rs: seq<Row>)
    ensures Tallies(Folded(rs), rs)
  {
    if rs != [] {
      var init, r := rs[..|rs| - 1], rs[|rs| - 1];
      assert rs == init + [r];
      FoldedTallies(init);
      if Converts(r) {
        AddRowTallies(Folded(init), init, r);
      } else {
        SkippedRowChangesNothing(Folded(init), init, r);
      }
    }
  }

  /** The sums determine the dictionaries: any four dictionaries that tally
      `rs` are the folded ones. */
  lemma TalliesUnique(p: Dictionaries, rs: seq<Row>)
    requires Tallies(p, rs)
    ensures p == Folded(rs)
  {
    FoldedTallies(rs);
    var f := Folded(rs);
    assert p.counts == f.counts;
    assert p.totalStock == f.totalStock;
    assert p.totalIncome == f.totalIncome;
    assert p.totalSum == f.totalSum;
  }

  /** The four dictionaries have one key set, every count is positive, and
      for every key the total is the stock plus the income. */
  lemma PositionsAgree(p: Dictionaries, rs: seq<Row>)
    requires Tallies(p, rs)
    ensures Aligned(p)
    ensures forall s :: s in p.totalSum ==> p.totalSum[s] == p.totalStock[s] + p.totalIncome[s] && p.counts[s] > 0
  {
    forall s | s in HeldSymbols(rs)
      ensures SumOf(rs, s, SumAmount) == SumOf(rs, s, StockAmount) + SumOf(rs, s, IncomeAmount)
      ensures CountOf(rs, s) > 0
    {
      SumIsStockPlusIncome(rs, s);
      CountPositiveIff(rs, s);
    }
  }

  // ---------------------------------------------------------------------
  // The sum of the counts

  /** Sum of the counts over the keys `keys` of `m`. */
  ghost function TallyOver(m: map<Symbol, nat>, keys: set<Symbol>): nat
    requires keys <= m.Keys
    decreases keys
  {
    if keys == {} then 0
    else
      var k :| k in keys;
      m[k] + TallyOver(m, keys - {k})
  }

  /** Sum of all counts of `m`: `sum(m.values())`. */
  ghost function Tally(m: map<Symbol, nat>): nat
  {
    TallyOver(m, m.Keys)
  }

  lemma {:induction false} TallyOverRemove(m: map<Symbol, nat>, keys: set<Symbol>, k: Symbol)
    requires keys <= m.Keys && k in keys
    ensures TallyOver(m, keys) == m[k] + TallyOver(m, keys - {k})
    decreases keys
  {
    var k' :| k' in keys && TallyOver(m, keys) == m[k'] + TallyOver(m, keys - {k'});
    if k' != k {
      TallyOverRemove(m, keys - {k'}, k);
      TallyOverRemove(m, keys - {k}, k');
      assert keys - {k'} - {k} == keys - {k} - {k'};
    }
  }

  lemma {:induction false} TallyOverAgree(m: map<Symbol, nat>, m': map<Symbol, nat>, keys: set<Symbol>)
    requires keys <= m.Keys && keys <= m'.Keys
    requires forall k :: k in keys ==> m[k] == m'[k]
    ensures TallyOver(m, keys) == TallyOver(m', keys)
    decreases keys
  {
    if keys != {} {
      var k :| k in keys && TallyOver(m, keys) == m[k] + TallyOver(m, keys - {k});
      TallyOverRemove(m', keys, k);
      TallyOverAgree(m, m', keys - {k});
    }
  }

  /** Adding one to the count of `k` (a new key starts at one) adds one to
      the sum of the counts. */
  lemma TallyIncrement(m: map<Symbol, nat>, k: Symbol)
    ensures Tally(m[k := if k in m then m[k] + 1 else 1]) == Tally(m) + 1
  {
    var m' := m[k := if k in m then m[k] + 1 else 1];
    TallyOverRemove(m', m'.Keys, k);
    if k in m {
      TallyOverRemove(m, m.Keys, k);
      assert m'.Keys - {k} == m.Keys - {k};
      TallyOverAgree(m, m', m.Keys - {k});
    } else {
      assert m'.Keys - {k} == m.Keys;
      TallyOverAgree(m, m', m.Keys);
    }
  }

  /** The folded counts add up to the number of converting rows. */
  lemma {:induction false} FoldedCountsAddUp(rs: seq<Row>)
    ensures Tally(Folded(rs).counts) == ConvertedCount(rs)
  {
    if rs != [] {
      var init, r := rs[..|rs| - 1], rs[|rs| - 1];
      FoldedCountsAddUp(init);
      if Converts(r) {
        var c := Folded(init).counts;
        assert Folded(rs).counts == c[r.symbol := if r.symbol in c then c[r.symbol] + 1 else 1];
        TallyIncrement(c, r.symbol);
      }
    }
  }

  /** `sum(symbol_counts.values())` is at most the number of rows folded,
      with equality exactly when every row converts. */
  lemma CountsBoundedByRows(p: Dictionaries, rs: seq<Row>)
    requires Tallies(p, rs)
    ensures Tally(p.counts) == ConvertedCount(rs) <= |rs|
    ensures Tally(p.counts) == |rs| <==> forall i :: 0 <= i < |rs| ==> Converts(rs[i])
  {
    TalliesUnique(p, rs);
    FoldedCountsAddUp(rs);
  }

  // ---------------------------------------------------------------------
  // Exceptions raised by the fold

  /** The exception, if any, raised while folding row `r`. Only `ValueError`
      is caught, so a missing column's `KeyError` escapes; `Average Price` is
      read only after `Quantity` has converted. */
  function RowError(r: Row, hasSymbol: bool, hasQuantity: bool, hasAveragePrice: bool): Option<Exception>
  {
    if !hasSymbol then Some(KeyError(SymbolColumn))
    else if !hasQuantity then Some(KeyError(QuantityColumn))
    else if r.quantity.None? then None
    else if !hasAveragePrice then Some(KeyError(AveragePriceColumn))
    else None
  }

  /** The first exception raised while folding `rs`, if any. */
  function FoldError(rs: seq<Row>, hasSymbol: bool, hasQuantity: bool, hasAveragePrice: bool): (e: Option<Exception>)
    ensures hasSymbol && hasQuantity && hasAveragePrice ==> e == None
    ensures rs == [] ==> e == None
  {
    if rs == [] then None
    else
      var earlier := FoldError(rs[..|rs| - 1], hasSymbol, hasQuantity, hasAveragePrice);
      if earlier.Some? then earlier
      else RowError(rs[|rs| - 1], hasSymbol, hasQuantity, hasAveragePrice)
  }

  /** Folding one more row raises what that row raises, if the rows before
      it raised nothing. */
  lemma FoldErrorStep(rs: seq<Row>, i: nat, hasSymbol: bool, hasQuantity: bool, hasAveragePrice: bool)
    requires i < |rs| && FoldError(rs[..i], hasSymbol, hasQuantity, hasAveragePrice) == None
    ensures FoldError(rs[..i + 1], hasSymbol, hasQuantity, hasAveragePrice) == RowError(rs[i], hasSymbol, hasQuantity, hasAveragePrice)
  {
    assert rs[..i + 1][..i] == rs[..i];
  }

  /** Once a prefix raises, the whole fold raises the same exception. */
  lemma {:induction false} FoldErrorPersists(rs: seq<Row>, n: nat, hasSymbol: bool, hasQuantity: bool, hasAveragePrice: bool)
    requires n <= |rs|
    requires FoldError(rs[..n], hasSymbol, hasQuantity, hasAveragePrice).Some?
    ensures FoldError(rs, hasSymbol, hasQuantity, hasAveragePrice) == FoldError(rs[..n], hasSymbol, hasQuantity, hasAveragePrice)
    decreases |rs|
  {
    if n == |rs| {
      assert rs[..n] == rs;
    } else {
      var init := rs[..|rs| - 1];
      assert init[..n] == rs[..n];
      FoldErrorPersists(init, n, hasSymbol, hasQuantity, hasAveragePrice);
    }
  }

  // ---------------------------------------------------------------------
  // The fold

  /** Folding one more row adds it when it converts and skips it otherwise. */
  lemma FoldedStep(rs: seq<Row>, i: nat)
    requires i < |rs|
    ensures Folded(rs[..i + 1]) == if Converts(rs[i]) then AddRow(Folded(rs[..i]), rs[i]) else Folded(rs[..i])
  {
    assert rs[..i + 1][..i] == rs[..i];
  }

  /** Lines 82-91: the four in-place updates for one converting row `r`,
      `d[s] += x` when the symbol is already a key and `d[s] = x` when it is
      new; they perform exactly `AddRow`. */
  method AddPosition(symbolCounts: map<Symbol, nat>, symbolTotalStock: map<Symbol, real>,
                     symbolTotalIncome: map<Symbol, real>, symbolTotalSum: map<Symbol, real>,
                     symbol: Symbol, quantity: real, income: real, ghost r: Row)
    returns (counts: map<Symbol, nat>, totalStock: map<Symbol, real>, totalIncome: map<Symbol, real>, totalSum: map<Symbol, real>)
    requires Aligned(Dictionaries(symbolCounts, symbolTotalStock, symbolTotalIncome, symbolTotalSum))
    requires Converts(r) && symbol == r.symbol && quantity == r.quantity.value && income == Income(r)
    ensures Dictionaries(counts, totalStock, totalIncome, totalSum)
            == AddRow(Dictionaries(symbolCounts, symbolTotalStock, symbolTotalIncome, symbolTotalSum), r)
  {
    if symbol in symbolCounts {
      counts := symbolCounts[symbol := symbolCounts[symbol] + 1];
      totalStock := symbolTotalStock[symbol := symbolTotalStock[symbol] + quantity];
      totalIncome := symbolTotalIncome[symbol := symbolTotalIncome[symbol] + income];
      totalSum := symbolTotalSum[symbol := symbolTotalSum[symbol] + (quantity + income)];
    } else {
      counts := symbolCounts[symbol := 1];
      totalStock := symbolTotalStock[symbol := quantity];
      totalIncome := symbolTotalIncome[symbol := income];
      totalSum := symbolTotalSum[symbol := quantity + income];
    }
  }

  /** Lines 76-93: the loop over the in-window `Equity` rows updating the
      four dictionaries. */
  method FoldPositions(rs: seq<Row>, hasSymbol: bool, hasQuantity: bool, hasAveragePrice: bool)
    returns (r: Result<Dictionaries>)
    ensures FoldError(rs, hasSymbol, hasQuantity, hasAveragePrice).Some? ==>
              r == Failure(FoldError(rs, hasSymbol, hasQuantity, hasAveragePrice).value)
    ensures FoldError(rs, hasSymbol, hasQuantity, hasAveragePrice).None? ==> r.Success? && Tallies(r.value, rs)
  {
    var symbolCounts: map<Symbol, nat> := map[];
    var symbolTotalStock: map<Symbol, real> := map[];
    var symbolTotalIncome: map<Symbol, real> := map[];
    var symbolTotalSum: map<Symbol, real> := map[];
    var i := 0;
    while i < |rs|
      invariant i <= |rs|
      invariant FoldError(rs[..i], hasSymbol, hasQuantity, hasAveragePrice) == None
      invariant Dictionaries(symbolCounts, symbolTotalStock, symbolTotalIncome, symbolTotalSum) == Folded(rs[..i])
    {
      var row := rs[i];
      FoldErrorStep(rs, i, hasSymbol, hasQuantity, hasAveragePrice);
      FoldedStep(rs, i);
      if !hasSymbol {
        FoldErrorPersists(rs, i + 1, hasSymbol, hasQuantity, hasAveragePrice);
        return Failure(KeyError(SymbolColumn));
      }
      var symbol := row.symbol;
      if !hasQuantity {
        FoldErrorPersists(rs, i + 1, hasSymbol, hasQuantity, hasAveragePrice);
        return Failure(KeyError(QuantityColumn));
      }
      if row.quantity.Some? {
        var quantity := row.quantity.value;
        if !hasAveragePrice {
          FoldErrorPersists(rs, i + 1, hasSymbol, hasQuantity, hasAveragePrice);
          return Failure(KeyError(AveragePriceColumn));
        }
        if row.averagePrice.Some? {
          var averagePrice := row.averagePrice.value;
          var income := quantity * averagePrice;
          symbolCounts, symbolTotalStock, symbolTotalIncome, symbolTotalSum :=
            AddPosition(symbolCounts, symbolTotalStock, symbolTotalIncome, symbolTotalSum, symbol, quantity, income, row);
        }
      }
      i := i + 1;
    }
    assert rs[..i] == rs;
    FoldedTallies(rs);
    return Success(Dictionaries(symbolCounts, symbolTotalStock, symbolTotalIncome, symbolTotalSum));
  }
}
