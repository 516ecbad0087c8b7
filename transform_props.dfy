/** What transform() promises about its output table, proved of the model in `Transform`:
    which columns appear, what each cell of a kept row is in terms of its raw record,
    which rows survive the completeness filter and in what order, and the KPI columns. */
module TransformProps {
  import opened Frame
  import opened Seqs
  import opened Extract
  import opened Transform

  // ---------------------------------------------------------------- one step at a time

  /** The name-list loop leaves every column it does not list untouched. */
  lemma {:induction false} NamesRowOther(row: Row, names: seq<string>, c: string)
    requires NamesRow(row, names).Ok?
    requires c !in names
    ensures Cell(NamesRow(row, names).value, c) == Cell(row, c)
    decreases names
  {
    if names != [] {
      var next := ApplyCell(row, names[0], names[0], ExtractNames).value;
      NamesRowOther(next, names[1..], c);
    }
  }

  /** A column the name-list loop lists once ends up holding extract_names of its raw value. */
  lemma {:induction false} NamesRowListed(row: Row, names: seq<string>, c: string)
    requires NamesRow(row, names).Ok?
    requires forall i, j :: 0 <= i < j < |names| ==> names[i] != names[j]
    requires c in names
    ensures ExtractNames(Cell(row, c)) == Ok(Cell(NamesRow(row, names).value, c))
    decreases names
  {
    var next := ApplyCell(row, names[0], names[0], ExtractNames).value;
    if c == names[0] {
      assert c !in names[1..] by {
        forall j | 0 <= j < |names[1..]| ensures names[1..][j] != c {
          assert names[1..][j] == names[j + 1];
        }
      }
      NamesRowOther(next, names[1..], c);
    } else {
      assert c in names[1..];
      NamesRowListed(next, names[1..], c);
    }
  }

  /** The credits step fills the four derived columns from the credits cell. */
  lemma CreditsCells(row: Row)
    requires CreditsRow(row).Ok?
    ensures var out := CreditsRow(row).value;
      && ExtractCast(Cell(row, "credits")) == Ok(Cell(out, "cast"))
      && ExtractDirector(Cell(row, "credits")) == Ok(Cell(out, "director"))
      && ExtractCastSize(Cell(row, "credits")) == Ok(Cell(out, "cast_size"))
      && ExtractCrewSize(Cell(row, "credits")) == Ok(Cell(out, "crew_size"))
  {
  }

  /** ... and leaves every other column as it was. */
  lemma CreditsOther(row: Row, c: string)
    requires CreditsRow(row).Ok?
    requires c != "cast" && c != "director" && c != "cast_size" && c != "crew_size"
    ensures c in CreditsRow(row).value <==> c in row
    ensures Cell(CreditsRow(row).value, c) == Cell(row, c)
  {
  }

  /** The money columns in millions: NA exactly when the coerced raw amount is NA or zero,
      otherwise one millionth of it, and so never zero. */
  lemma MoneyInMillions(v: Value, number: Value -> Option<real>)
    ensures var musd := Millions(ZeroAsMissing(Coerce(v, number)));
      && (musd == Missing <==> Coerce(v, number) == Missing || Coerce(v, number) == Num(0.0))
      && (musd.Num? ==> musd.x * 1000000.0 == Coerce(v, number).x && musd.x != 0.0)
      && (musd == Missing || musd.Num?)
  {
  }

  // ---------------------------------------------------------------- one record

  /** A prepared record is the late steps applied to the record after the early ones. */
  lemma PrepareRowParts(record: Row, number: Value -> Option<real>, date: Value -> Option<int>)
    requires PrepareRow(record, number, date).Ok?
    ensures EarlyRow(record - Denylist).Ok?
    ensures PrepareRow(record, number, date).value == LateRow(EarlyRow(record - Denylist).value, number, date)
  {
  }

  lemma EarlyRowParts(row: Row)
    requires EarlyRow(row).Ok?
    ensures CreditsRow(row).Ok? && NamesRow(CreditsRow(row).value, JsonColumns).Ok?
    ensures EarlyRow(row).value == NamesRow(CreditsRow(row).value, JsonColumns).value
  {
  }

  /** The early steps fill the credits columns from the raw credits cell. */
  lemma EarlyCredits(record: Row)
    requires EarlyRow(record - Denylist).Ok?
    ensures var out := EarlyRow(record - Denylist).value;
      && ExtractCast(Cell(record, "credits")) == Ok(Cell(out, "cast"))
      && ExtractDirector(Cell(record, "credits")) == Ok(Cell(out, "director"))
      && ExtractCastSize(Cell(record, "credits")) == Ok(Cell(out, "cast_size"))
      && ExtractCrewSize(Cell(record, "credits")) == Ok(Cell(out, "crew_size"))
  {
    var dropped := record - Denylist;
    EarlyRowParts(dropped);
    var credited := CreditsRow(dropped).value;
    CreditsCells(dropped);
    CreditsOther(dropped, "credits");
    ColumnLists("cast");
    NamesRowOther(credited, JsonColumns, "cast");
    NamesRowOther(credited, JsonColumns, "director");
    NamesRowOther(credited, JsonColumns, "cast_size");
    NamesRowOther(credited, JsonColumns, "crew_size");
  }

  /** The early steps turn each name-list column into extract_names of its raw cell. */
  lemma EarlyNames(record: Row, c: string)
    requires EarlyRow(record - Denylist).Ok?
    requires c in JsonColumns
    ensures ExtractNames(Cell(record, c)) == Ok(Cell(EarlyRow(record - Denylist).value, c))
  {
    var dropped := record - Denylist;
    EarlyRowParts(dropped);
    ColumnLists(c);
    CreditsOther(dropped, c);
    NamesRowListed(CreditsRow(dropped).value, JsonColumns, c);
  }

  /** The early steps leave the columns the late steps read alone. */
  lemma EarlyOther(record: Row, c: string)
    requires EarlyRow(record - Denylist).Ok?
    requires c in LateColumns
    ensures Cell(EarlyRow(record - Denylist).value, c) == Cell(record, c)
  {
    var dropped := record - Denylist;
    EarlyRowParts(dropped);
    ColumnLists(c);
    CreditsOther(dropped, c);
    NamesRowOther(CreditsRow(dropped).value, JsonColumns, c);
  }

  /** The credits fields of a prepared record hold what the credits helpers extract from
      its raw credits cell (transform.py:50-53). */
  lemma PreparedCredits(record: Row, number: Value -> Option<real>, date: Value -> Option<int>)
    requires PrepareRow(record, number, date).Ok?
    ensures var out := PrepareRow(record, number, date).value;
      && ExtractCast(Cell(record, "credits")) == Ok(Cell(out, "cast"))
      && ExtractDirector(Cell(record, "credits")) == Ok(Cell(out, "director"))
      && ExtractCastSize(Cell(record, "credits")) == Ok(Cell(out, "cast_size"))
      && ExtractCrewSize(Cell(record, "credits")) == Ok(Cell(out, "crew_size"))
  {
    PrepareRowParts(record, number, date);
    var named := EarlyRow(record - Denylist).value;
    EarlyCredits(record);
    ColumnLists("cast");
    LateRowOther(named, number, date, "cast");
    LateRowOther(named, number, date, "director");
    LateRowOther(named, number, date, "cast_size");
    LateRowOther(named, number, date, "crew_size");
  }

  /** The late steps leave every column they do not write as it was. */
  lemma LateRowOther(row: Row, number: Value -> Option<real>, date: Value -> Option<int>, c: string)
    requires c !in LateColumns
    ensures Cell(LateRow(row, number, date), c) == Cell(row, c)
  {
    LateRowCell(row, number, date, c);
  }

  /** Each name-list field of a prepared record holds extract_names of its raw field
      (transform.py:56-58). */
  lemma PreparedNames(record: Row, number: Value -> Option<real>, date: Value -> Option<int>, c: string)
    requires PrepareRow(record, number, date).Ok?
    requires c in JsonColumns
    ensures ExtractNames(Cell(record, c)) == Ok(Cell(PrepareRow(record, number, date).value, c))
  {
    PrepareRowParts(record, number, date);
    var named := EarlyRow(record - Denylist).value;
    EarlyNames(record, c);
    ColumnLists(c);
    LateRowOther(named, number, date, c);
  }

  /** The collection, date, numeric and money fields of a prepared record depend on its raw
      fields alone, as `LateCell` says (transform.py:60-74). */
  lemma PreparedLateCell(record: Row, number: Value -> Option<real>, date: Value -> Option<int>, c: string)
    requires PrepareRow(record, number, date).Ok?
    requires c in LateColumns
    ensures Cell(PrepareRow(record, number, date).value, c) == LateCell(record, c, number, date)
  {
    PrepareRowParts(record, number, date);
    var named := EarlyRow(record - Denylist).value;
    EarlyOther(record, c);
    EarlyOther(record, "budget");
    EarlyOther(record, "revenue");
    LateCellCongruent(named, record, c, number, date);
    LateRowCell(named, number, date, c);
  }

  /** `LateCell` reads a cell's own column and the raw budget and revenue, nothing else. */
  lemma LateCellCongruent(a: Row, b: Row, c: string, number: Value -> Option<real>, date: Value -> Option<int>)
    requires Cell(a, c) == Cell(b, c) && Cell(a, "budget") == Cell(b, "budget") && Cell(a, "revenue") == Cell(b, "revenue")
    ensures LateCell(a, c, number, date) == LateCell(b, c, number, date)
  {
  }

  /** The name-list loop adds no column beyond the ones it lists. */
  lemma {:induction false} NamesRowKeys(row: Row, names: seq<string>)
    requires NamesRow(row, names).Ok?
    ensures NamesRow(row, names).value.Keys == row.Keys + set c | c in names
    decreases names
  {
    if names != [] {
      NamesRowKeys(ApplyCell(row, names[0], names[0], ExtractNames).value, names[1..]);
    }
  }

  // ---------------------------------------------------------------- the whole table

  /** A frame built from no records has no `credits` column, so the first `df["credits"]`
      raises KeyError. */
  lemma EmptyInput(number: Value -> Option<real>, date: Value -> Option<int>)
    ensures Transformed([], number, date) == Err(KeyError("credits"))
  {
    assert Prepared([], number, date) == Err(KeyError("credits")) by {
      assert Columns([]) == {};
    }
  }

  /** Dropping the denylisted columns ignores the ones that are absent, and the output does not
      depend on them at all: dropping them beforehand changes nothing (transform.py:46-47). */
  lemma DenylistIgnored(records: seq<Row>, number: Value -> Option<real>, date: Value -> Option<int>)
    ensures Transformed(DropColumns(records), number, date) == Transformed(records, number, date)
  {
    var dropped := DropColumns(records);
    DropTwice(records);
    DropKeepsColumns(records);
    assert Prepared(dropped, number, date) == Prepared(records, number, date);
  }

  lemma DropTwice(records: seq<Row>)
    ensures DropColumns(DropColumns(records)) == DropColumns(records)
  {
    var dropped := DropColumns(records);
    forall i | 0 <= i < |records| ensures DropColumns(dropped)[i] == dropped[i] {
      assert dropped[i] - Denylist == dropped[i];
    }
  }

  lemma DropKeepsColumns(records: seq<Row>)
    ensures Columns(DropColumns(records)) - Denylist == Columns(records) - Denylist
  {
    var dropped := DropColumns(records);
    forall c | c in Columns(records) - Denylist ensures c in Columns(dropped) {
      var i :| 0 <= i < |records| && c in records[i];
      assert c in dropped[i];
    }
  }

  /** A successful transform() is the table built from the prepared rows. */
  lemma TransformedParts(records: seq<Row>, number: Value -> Option<real>, date: Value -> Option<int>)
    requires Transformed(records, number, date).Ok?
    ensures Prepared(records, number, date).Ok?
    ensures var selected := Selected(Columns(records) - Denylist);
      Transformed(records, number, date).value ==
      Table(selected + KpiColumns, KpiStage(ProjectRows(Filter(Prepared(records, number, date).value, Complete), selected)))
  {
    var prepared := Prepared(records, number, date);
    assert prepared.Ok?;
    var selected := Selected(Columns(records) - Denylist);
    assert Transformed(records, number, date) ==
      Ok(Table(selected + KpiColumns, KpiStage(ProjectRows(Filter(prepared.value, Complete), selected))));
  }

  /** The selection of transform.py:86: the entries of `final_columns` the frame has, in list
      order, always including the six derived columns and never a denylisted one. */
  lemma SelectedColumns(columns: set<string>)
    ensures forall c :: c in Selected(columns) <==> c in FinalColumns && c in columns + DerivedColumns
    ensures IsSubseq(Selected(columns), FinalColumns)
    ensures forall c :: c in DerivedColumns ==> c in Selected(columns)
    ensures forall c :: c in Denylist ==> c !in Selected(columns) + KpiColumns
  {
    FilterIsSubseq(FinalColumns, c => c in columns + DerivedColumns);
    forall c | c in DerivedColumns ensures c in Selected(columns) {
      ColumnLists(c);
    }
    forall c | c in Denylist ensures c !in Selected(columns) + KpiColumns {
      ColumnLists(c);
    }
  }

  /** The four credits helpers all read the credits cell without raising. */
  predicate CreditsReadable(credits: Value) {
    && ExtractCast(credits).Ok? && ExtractDirector(credits).Ok?
    && ExtractCastSize(credits).Ok? && ExtractCrewSize(credits).Ok?
  }

  /** The name-list loop over distinct columns succeeds exactly when `extract_names` succeeds
      on each listed column's original cell. */
  lemma {:induction false} NamesRowOk(row: Row, names: seq<string>)
    requires forall i, j :: 0 <= i < j < |names| ==> names[i] != names[j]
    ensures NamesRow(row, names).Ok? <==> forall c :: c in names ==> ExtractNames(Cell(row, c)).Ok?
    decreases names
  {
    if names != [] {
      var first := ApplyCell(row, names[0], names[0], ExtractNames);
      if first.Ok? {
        NamesRowOk(first.value, names[1..]);
        forall c | c in names[1..] ensures Cell(first.value, c) == Cell(row, c) {
          var j :| 0 <= j < |names[1..]| && names[1..][j] == c;
          assert names[j + 1] == c;
        }
        assert forall c :: c in names <==> c == names[0] || c in names[1..];
      }
    }
  }

  /** A record survives the steps up to the row filter exactly when the four credits helpers
      can read its credits cell and `extract_names` can read each of its name-list cells
      (transform.py:46-74): the later steps never raise on a single row. */
  lemma PrepareRowOk(record: Row, number: Value -> Option<real>, date: Value -> Option<int>)
    ensures PrepareRow(record, number, date).Ok? <==>
      CreditsReadable(Cell(record, "credits")) && forall c :: c in JsonColumns ==> ExtractNames(Cell(record, c)).Ok?
  {
    var dropped := record - Denylist;
    assert Cell(dropped, "credits") == Cell(record, "credits");
    var credited := CreditsRow(dropped);
    if credited.Ok? {
      ColumnLists("cast");
      NamesRowOk(credited.value, JsonColumns);
      forall c | c in JsonColumns ensures Cell(credited.value, c) == Cell(record, c) {
        ColumnLists(c);
        CreditsOther(dropped, c);
      }
    }
  }

  /** The row test of `dropna(thresh=10)` counts only non-NA cells: a row with fewer than ten
      columns never passes, and an NA cell, present or absent, makes no difference. */
  lemma CompleteRow(row: Row, c: string)
    ensures |row| < Threshold ==> !Complete(row)
    ensures Complete(row[c := Missing]) <==> Complete(row - {c})
  {
    var live := set k | k in row && row[k] != Missing;
    assert live <= row.Keys;
    SubsetSize(live, row.Keys);
    var updated, removed := row[c := Missing], row - {c};
    assert (set k | k in updated && updated[k] != Missing) == (set k | k in removed && removed[k] != Missing);
  }

  lemma {:induction false} SubsetSize<T>(a: set<T>, b: set<T>)
    requires a <= b
    ensures |a| <= |b|
    decreases b
  {
    if a != {} {
      var x :| x in a;
      SubsetSize(a - {x}, b - {x});
    }
  }

  /** How the column lists of transform() relate: the name-list columns are distinct; the four
      credits columns are written by no other step; a name-list column is neither a late
      column nor denylisted, and neither is a late column a name-list column; every derived
      column is a final column; and no denylisted column is a final or KPI column. */
  lemma ColumnLists(c: string)
    ensures forall i, j :: 0 <= i < j < |JsonColumns| ==> JsonColumns[i] != JsonColumns[j]
    ensures forall n :: n in {"cast", "director", "cast_size", "crew_size"} ==> n !in JsonColumns && n !in LateColumns
    ensures c in JsonColumns ==> (c !in LateColumns && c !in Denylist &&
      c != "cast" && c != "director" && c != "cast_size" && c != "crew_size")
    ensures c in LateColumns ==> (c !in JsonColumns && c !in Denylist &&
      c != "cast" && c != "director" && c != "cast_size" && c != "crew_size")
    ensures c in DerivedColumns ==> c in FinalColumns
    ensures c in Denylist ==> c !in FinalColumns && c !in KpiColumns
  {
    NameListColumnsApart(c);
    LateColumnsApart(c);
    FinalColumnsApart(c);
  }

  lemma NameListColumnsApart(c: string)
    ensures forall i, j :: 0 <= i < j < |JsonColumns| ==> JsonColumns[i] != JsonColumns[j]
    ensures c in JsonColumns ==> (c !in LateColumns && c !in Denylist &&
      c != "cast" && c != "director" && c != "cast_size" && c != "crew_size")
  {
  }

  lemma LateColumnsApart(c: string)
    ensures forall n :: n in {"cast", "director", "cast_size", "crew_size"} ==> n !in JsonColumns && n !in LateColumns
    ensures c in LateColumns ==> (c !in JsonColumns && c !in Denylist &&
      c != "cast" && c != "director" && c != "cast_size" && c != "crew_size")
  {
  }

  lemma FinalColumnsApart(c: string)
    ensures c in DerivedColumns ==> c in FinalColumns
    ensures c in Denylist ==> c !in FinalColumns && c !in KpiColumns
  {
    DenylistedApart();
  }

  lemma DenylistedApart()
    ensures forall d :: d in Denylist ==> d !in FinalColumns && d !in KpiColumns
  {
  }

  /** A prepared row as it appears in the output: projected, then given its KPI columns. */
  function Finished(prepared: Row, selected: seq<string>): (r: Row)
    ensures r.Keys == (set c | c in selected) + {"profit", "roi"}
    ensures forall c :: c in selected && c != "profit" && c != "roi" ==> r[c] == Cell(prepared, c)
  {
    WithKpis(Project(prepared, selected))
  }

  /** The rows after the filter, projection and KPI steps (transform.py:77-91): one finished
      row per complete prepared row, in order. */
  lemma FinishedRows(prepared: seq<Row>, selected: seq<string>)
    ensures var kept := Filter(prepared, Complete);
      var rows := KpiStage(ProjectRows(kept, selected));
      && IsSubseq(kept, prepared)
      && (forall p :: p in kept <==> p in prepared && NonMissing(p) >= Threshold)
      && |rows| == |kept|
      && (forall j :: 0 <= j < |kept| ==> rows[j] == Finished(kept[j], selected))
  {
    FilterIsSubseq(prepared, Complete);
  }

  /** Every finished row has exactly the selected columns and the two KPI columns. */
  lemma FinishedColumns(prepared: seq<Row>, selected: seq<string>)
    ensures var rows := KpiStage(ProjectRows(Filter(prepared, Complete), selected));
      forall j :: 0 <= j < |rows| ==> rows[j].Keys == set c | c in selected + KpiColumns
  {
    var rows := KpiStage(ProjectRows(Filter(prepared, Complete), selected));
    forall j | 0 <= j < |rows| ensures rows[j].Keys == set c | c in selected + KpiColumns {
      assert (set c | c in selected + KpiColumns) == (set c | c in selected) + {"profit", "roi"};
    }
  }

  /** The output columns (transform.py:80-91): the entries of `final_columns` present in the
      frame, in list order, then `profit` and `roi`; every row has exactly these columns. */
  lemma OutputColumns(records: seq<Row>, number: Value -> Option<real>, date: Value -> Option<int>)
    requires Transformed(records, number, date).Ok?
    ensures var t := Transformed(records, number, date).value;
      && t.columns == Selected(Columns(records) - Denylist) + KpiColumns
      && (forall j :: 0 <= j < |t.rows| ==> t.rows[j].Keys == set c | c in t.columns)
  {
    TransformedParts(records, number, date);
    FinishedColumns(Prepared(records, number, date).value, Selected(Columns(records) - Denylist));
  }

  /** Which rows survive `dropna(thresh=10)` (transform.py:77): the output holds, in input
      order, one finished row per record whose prepared row has at least ten non-NA fields,
      and no other row. */
  lemma OutputRows(records: seq<Row>, number: Value -> Option<real>, date: Value -> Option<int>)
    requires Transformed(records, number, date).Ok?
    ensures var t := Transformed(records, number, date).value;
      var prepared := Prepared(records, number, date).value;
      var kept := Filter(prepared, Complete);
      && |prepared| == |records|
      && (forall i :: 0 <= i < |records| ==> PrepareRow(records[i], number, date) == Ok(prepared[i]))
      && IsSubseq(kept, prepared)
      && (forall p :: p in kept <==> p in prepared && NonMissing(p) >= Threshold)
      && |t.rows| == |kept|
      && (forall j :: 0 <= j < |kept| ==> t.rows[j] == Finished(kept[j], Selected(Columns(records) - Denylist)))
  {
    TransformedParts(records, number, date);
    FinishedRows(Prepared(records, number, date).value, Selected(Columns(records) - Denylist));
  }

  /** The KPI columns of every output row (transform.py:89-91): profit is the difference of
      the two money columns when both are present, roi their quotient when both are present;
      a present budget is never zero, so roi is never dropped for an infinite quotient. */
  predicate KpisHold(row: Row) {
    var revenue, budget := Cell(row, "revenue_musd"), Cell(row, "budget_musd");
    var profit, roi := Cell(row, "profit"), Cell(row, "roi");
    && (profit.Num? <==> revenue.Num? && budget.Num?)
    && (profit.Num? ==> profit.x == revenue.x - budget.x)
    && (budget.Num? ==> budget.x != 0.0)
    && (roi.Num? <==> revenue.Num? && budget.Num?)
    && (roi.Num? ==> roi.x == revenue.x / budget.x)
  }

  lemma OutputKpis(records: seq<Row>, number: Value -> Option<real>, date: Value -> Option<int>)
    requires Transformed(records, number, date).Ok?
    ensures forall row :: row in Transformed(records, number, date).value.rows ==> KpisHold(row)
  {
    TransformedParts(records, number, date);
    var selected := Selected(Columns(records) - Denylist);
    SelectedColumns(Columns(records) - Denylist);
    PreparedBudgets(records, number, date);
    FinishedKpisAll(Prepared(records, number, date).value, selected);
  }

  /** A budget in millions is NA or non-zero: `replace(0, pd.NA)` runs before the division. */
  predicate BudgetUsable(row: Row) {
    var budget := Cell(row, "budget_musd");
    budget == Missing || (budget.Num? && budget.x != 0.0)
  }

  lemma PreparedBudgets(records: seq<Row>, number: Value -> Option<real>, date: Value -> Option<int>)
    requires Prepared(records, number, date).Ok?
    ensures forall p :: p in Prepared(records, number, date).value ==> BudgetUsable(p)
  {
    var prepared := Prepared(records, number, date).value;
    forall p | p in prepared ensures BudgetUsable(p) {
      var i :| 0 <= i < |prepared| && prepared[i] == p;
      PreparedLateCell(records[i], number, date, "budget_musd");
      MoneyInMillions(Cell(records[i], "budget"), number);
    }
  }

  lemma FinishedKpisAll(prepared: seq<Row>, selected: seq<string>)
    requires "budget_musd" in selected && "revenue_musd" in selected
    requires forall p :: p in prepared ==> BudgetUsable(p)
    ensures forall row :: row in KpiStage(ProjectRows(Filter(prepared, Complete), selected)) ==> KpisHold(row)
  {
    var kept := Filter(prepared, Complete);
    var rows := KpiStage(ProjectRows(kept, selected));
    forall row | row in rows ensures KpisHold(row) {
      var j :| 0 <= j < |rows| && rows[j] == row;
      assert kept[j] in prepared;
      FinishedKpis(kept[j], selected);
    }
  }

  /** The KPI columns of one finished row, when its budget column is NA or non-zero. */
  lemma FinishedKpis(prepared: Row, selected: seq<string>)
    requires "budget_musd" in selected && "revenue_musd" in selected
    requires BudgetUsable(prepared)
    ensures KpisHold(Finished(prepared, selected))
  {
  }
}
