/** The first stage of process_csv: one (first date, last date, days)
    triple per text column that yields at least one date. */
module DateRange {
  import opened Ledger

  datatype DateTriple = DateTriple(first: Day, last: Day, days: int)

  /** `dropna()` on a column of coerced dates. */
  function Present(cells: seq<Option<Day>>): (ds: seq<Day>)
    ensures forall d :: d in ds <==> Some(d) in cells
  {
    if cells == [] then []
    else (match cells[0] case Some(d) => [d] case None => []) + Present(cells[1..])
  }

  /** `sorted(ds)[0]`: the earliest date. */
  function Earliest(ds: seq<Day>): (m: Day)
    requires ds != []
    ensures m in ds && forall d :: d in ds ==> m <= d
  {
    if |ds| == 1 then ds[0]
    else
      var rest := Earliest(ds[1..]);
      assert ds == [ds[0]] + ds[1..];
      if ds[0] <= rest then ds[0] else rest
  }

  /** `sorted(ds)[-1]`: the latest date. */
  function Latest(ds: seq<Day>): (m: Day)
    requires ds != []
    ensures m in ds && forall d :: d in ds ==> d <= m
  {
    if |ds| == 1 then ds[0]
    else
      var rest := Latest(ds[1..]);
      assert ds == [ds[0]] + ds[1..];
      if ds[0] >= rest then ds[0] else rest
  }

  /** A column contributes a triple: it has object dtype, coercion did not
      raise, and at least one cell parsed as a date. */
  predicate YieldsDates(c: Column)
  {
    c.isObject && c.coercedDates.Some? && Present(c.coercedDates.value) != []
  }

  /** The triple a date-yielding column contributes. */
  function RangeOf(c: Column): (t: DateTriple)
    requires YieldsDates(c)
    ensures Some(t.first) in c.coercedDates.value && Some(t.last) in c.coercedDates.value
    ensures forall d :: Some(d) in c.coercedDates.value ==> t.first <= d <= t.last
    ensures t.days == t.last - t.first >= 0
  {
    var ds := Present(c.coercedDates.value);
    DateTriple(Earliest(ds), Latest(ds), Latest(ds) - Earliest(ds))
  }

  /** The `dates` list after the loop over `cols`, one triple per
      date-yielding column, in column order. */
  function DateTriples(cols: seq<Column>): (ts: seq<DateTriple>)
    ensures |ts| <= |cols|
    ensures forall t :: t in ts ==> t.first <= t.last && t.days == t.last - t.first
  {
    if cols == [] then []
    else
      var c := cols[|cols| - 1];
      DateTriples(cols[..|cols| - 1]) + (if YieldsDates(c) then [RangeOf(c)] else [])
  }

  /** Number of date-yielding columns. */
  function YieldingCount(cols: seq<Column>): nat
  {
    if cols == [] then 0
    else YieldingCount(cols[..|cols| - 1]) + (if YieldsDates(cols[|cols| - 1]) then 1 else 0)
  }

  /** `dates` holds one triple per date-yielding column, and no more. */
  lemma {:induction false} TripleCount(cols: seq<Column>)
    ensures |DateTriples(cols)| == YieldingCount(cols)
  {
    if cols != [] {
      TripleCount(cols[..|cols| - 1]);
    }
  }

  /** Every date-yielding column contributes its range, at the position given
      by the number of date-yielding columns before it: the triples come in
      column order. */
  lemma {:induction false} ColumnTripleAt(cols: seq<Column>, j: nat)
    requires j < |cols| && YieldsDates(cols[j])
    ensures YieldingCount(cols[..j]) < |DateTriples(cols)|
    ensures DateTriples(cols)[YieldingCount(cols[..j])] == RangeOf(cols[j])
    ensures RangeOf(cols[j]) in DateTriples(cols)
  {
    var init := cols[..|cols| - 1];
    if j == |cols| - 1 {
      TripleCount(init);
      assert cols[..j] == init;
    } else {
      ColumnTripleAt(init, j);
      assert cols[..j] == init[..j];
    }
  }

  /** Every triple is the range of some date-yielding column. */
  lemma {:induction false} TriplesComeFromColumns(cols: seq<Column>)
    ensures forall t :: t in DateTriples(cols) ==>
              exists j :: 0 <= j < |cols| && YieldsDates(cols[j]) && t == RangeOf(cols[j])
  {
    if cols != [] {
      var init := cols[..|cols| - 1];
      TriplesComeFromColumns(init);
      forall t | t in DateTriples(cols)
        ensures exists j :: 0 <= j < |cols| && YieldsDates(cols[j]) && t == RangeOf(cols[j])
      {
        if t in DateTriples(init) {
          var j :| 0 <= j < |init| && YieldsDates(init[j]) && t == RangeOf(init[j]);
          assert cols[j] == init[j];
        } else {
          assert YieldsDates(cols[|cols| - 1]) && t == RangeOf(cols[|cols| - 1]);
        }
      }
    }
  }

  /** `dates` stays empty exactly when no column yields a date. */
  lemma {:induction false} NoTriplesIff(cols: seq<Column>)
    ensures DateTriples(cols) == [] <==> forall j :: 0 <= j < |cols| ==> !YieldsDates(cols[j])
  {
    if cols != [] {
      var init := cols[..|cols| - 1];
      NoTriplesIff(init);
      assert forall j :: 0 <= j < |init| ==> init[j] == cols[j];
    }
  }

  /** The window used further on, `dates[0]` and `dates[1]`, is the range of
      the first date-yielding column. */
  lemma {:induction false} FirstTripleIsFirstColumn(cols: seq<Column>, j: nat)
    requires j < |cols| && YieldsDates(cols[j])
    requires forall k :: 0 <= k < j ==> !YieldsDates(cols[k])
    ensures DateTriples(cols) != [] && DateTriples(cols)[0] == RangeOf(cols[j])
  {
    var init := cols[..|cols| - 1];
    if j == |cols| - 1 {
      NoTriplesIff(init);
    } else {
      FirstTripleIsFirstColumn(init, j);
    }
  }

  /** The loop of process_csv over the columns, appending to `dates`. */
  method ExtractDates(columns: seq<Column>) returns (dates: seq<DateTriple>)
    ensures dates == DateTriples(columns)
  {
    dates := [];
    var i := 0;
    while i < |columns|
      invariant i <= |columns|
      invariant dates == DateTriples(columns[..i])
    {
      var column := columns[i];
      assert columns[..i + 1][..i] == columns[..i];
      if column.isObject {
        match column.coercedDates {
          case Some(cells) =>
            var dateColumn := Present(cells);
            if dateColumn != [] {
              var firstDate := Earliest(dateColumn);
              var lastDate := Latest(dateColumn);
              var totalDays := lastDate - firstDate;
              if totalDays < 0 {
                totalDays := -totalDays;
              }
              dates := dates + [DateTriple(firstDate, lastDate, totalDays)];
            }
          case None =>
            // to_datetime raised ValueError: the column is skipped
        }
      }
      i := i + 1;
    }
    assert columns[..i] == columns;
  }
}
