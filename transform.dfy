/** transform() of transform.py (lines 40-94): the fetched records, one row each, are
    normalised column by column into the analysis table.

    pandas runs every step over the whole column before the next step starts, so when
    two rows would fail in two different steps, the exception of the earlier step is
    the one raised. The stage functions below follow that column-major order; the
    row functions (`...Row`) apply the same updates to one row, and every stage states
    that its result is the row function applied to each row. */
module Transform {
  import opened Frame
  import opened Seqs
  import opened Extract

  /** `cols_to_drop` (transform.py:46). */
  const Denylist: set<string> := {"adult", "imdb_id", "original_title", "video", "homepage"}

  /** `json_columns` (transform.py:56). */
  const JsonColumns: seq<string> := ["genres", "production_countries", "production_companies", "spoken_languages"]

  /** `numeric_cols` (transform.py:63). */
  const NumericColumns: seq<string> := ["budget", "revenue", "popularity", "vote_count", "vote_average", "runtime"]

  /** `final_columns` (transform.py:80-85). */
  const FinalColumns: seq<string> := [
    "id", "title", "tagline", "release_date", "genres", "belongs_to_collection",
    "original_language", "budget_musd", "revenue_musd", "production_companies",
    "production_countries", "vote_count", "vote_average", "popularity", "runtime",
    "overview", "spoken_languages", "poster_path", "cast", "cast_size", "director", "crew_size"
  ]

  /** The two columns the KPI step appends (transform.py:89-91). */
  const KpiColumns: seq<string> := ["profit", "roi"]

  /** `dropna(thresh=10)` (transform.py:77). */
  const Threshold: nat := 10

  /** Columns the steps before the row filter add to every frame. */
  const DerivedColumns: set<string> := {"cast", "director", "cast_size", "crew_size", "budget_musd", "revenue_musd"}

  /** The columns of `pd.DataFrame(records)`: every key that some record has. */
  function Columns(records: seq<Row>): set<string> {
    set i, k | 0 <= i < |records| && k in records[i] :: k
  }

  /** `df.drop(columns=cols_to_drop, errors="ignore")` (transform.py:47). */
  function DropColumns(records: seq<Row>): (r: seq<Row>)
    ensures |r| == |records|
  {
    seq(|records|, i requires 0 <= i < |records| => records[i] - Denylist)
  }

  /** The drop removes exactly the denylisted columns a record has, ignores the absent ones,
      and leaves every other cell as it was. */
  lemma DroppedCells(records: seq<Row>)
    ensures forall i :: 0 <= i < |records| ==> DropColumns(records)[i].Keys == records[i].Keys - Denylist
    ensures forall i, c :: 0 <= i < |records| && c !in Denylist ==> Cell(DropColumns(records)[i], c) == Cell(records[i], c)
  {
  }

  // ---------------------------------------------------------------- apply

  /** `df[dst] = df[src].apply(f)` at one row. */
  function ApplyCell(row: Row, src: string, dst: string, f: Value -> Result<Value>): Result<Row> {
    var v :- f(Cell(row, src));
    Ok(row[dst := v])
  }

  /** `df[dst] = df[src].apply(f)`: row by row, the first exception aborting the step. */
  function ApplyColumn(rows: seq<Row>, src: string, dst: string, f: Value -> Result<Value>): (r: Result<seq<Row>>)
    ensures r.Ok? <==> forall i :: 0 <= i < |rows| ==> ApplyCell(rows[i], src, dst, f).Ok?
    ensures r.Ok? ==> (|r.value| == |rows| &&
      forall i :: 0 <= i < |rows| ==> ApplyCell(rows[i], src, dst, f) == Ok(r.value[i]))
  {
    if rows == [] then Ok([])
    else
      var row :- ApplyCell(rows[0], src, dst, f);
      var rest :- ApplyColumn(rows[1..], src, dst, f);
      Ok([row] + rest)
  }

  // ---------------------------------------------------------------- credits (transform.py:50-53)

  function CreditsRow(row: Row): Result<Row> {
    var a :- ApplyCell(row, "credits", "cast", ExtractCast);
    var b :- ApplyCell(a, "credits", "director", ExtractDirector);
    var c :- ApplyCell(b, "credits", "cast_size", ExtractCastSize);
    ApplyCell(c, "credits", "crew_size", ExtractCrewSize)
  }

  function CreditsStage(columns: set<string>, rows: seq<Row>): (r: Result<seq<Row>>)
    ensures r.Ok? <==> "credits" in columns && forall i :: 0 <= i < |rows| ==> CreditsRow(rows[i]).Ok?
    ensures r.Ok? ==> (|r.value| == |rows| &&
      forall i :: 0 <= i < |rows| ==> CreditsRow(rows[i]) == Ok(r.value[i]))
  {
    if "credits" !in columns then Err(KeyError("credits"))
    else
      var a :- ApplyColumn(rows, "credits", "cast", ExtractCast);
      var b :- ApplyColumn(a, "credits", "director", ExtractDirector);
      var c :- ApplyColumn(b, "credits", "cast_size", ExtractCastSize);
      ApplyColumn(c, "credits", "crew_size", ExtractCrewSize)
  }

  // ---------------------------------------------------------------- name lists (transform.py:56-58)

  function NamesRow(row: Row, names: seq<string>): Result<Row>
    decreases names
  {
    if names == [] then Ok(row)
    else
      var next :- ApplyCell(row, names[0], names[0], ExtractNames);
      NamesRow(next, names[1..])
  }

  /** One pass of the `for col in json_columns` loop per name, in order. */
  function NamesStage(columns: set<string>, rows: seq<Row>, names: seq<string>): (r: Result<seq<Row>>)
    decreases names
    ensures r.Ok? <==> ((forall n :: n in names ==> n in columns) &&
      forall i :: 0 <= i < |rows| ==> NamesRow(rows[i], names).Ok?)
    ensures r.Ok? ==> (|r.value| == |rows| &&
      forall i :: 0 <= i < |rows| ==> NamesRow(rows[i], names) == Ok(r.value[i]))
  {
    if names == [] then Ok(rows)
    else if names[0] !in columns then Err(KeyError(names[0]))
    else
      var next :- ApplyColumn(rows, names[0], names[0], ExtractNames);
      NamesStage(columns, next, names[1..])
  }

  // ---------------------------------------------------------------- collection (transform.py:60)

  function CollectionRow(row: Row): Row {
    row["belongs_to_collection" := ExtractCollection(Cell(row, "belongs_to_collection"))]
  }

  /** The source reads the column from the unmodified input frame; no earlier step
      touches it, so the working rows hold the same values. */
  function CollectionStage(columns: set<string>, rows: seq<Row>): Result<seq<Row>> {
    if "belongs_to_collection" !in columns then Err(KeyError("belongs_to_collection"))
    else Ok(seq(|rows|, i requires 0 <= i < |rows| => CollectionRow(rows[i])))
  }

  /** The collection step raises KeyError without its column; otherwise every row gets the
      collection's name in that column and keeps every other cell. */
  lemma CollectionStageCells(columns: set<string>, rows: seq<Row>)
    ensures var r := CollectionStage(columns, rows);
      && (r.Ok? <==> "belongs_to_collection" in columns)
      && (r.Err? ==> r.error == KeyError("belongs_to_collection"))
      && (r.Ok? ==> |r.value| == |rows| && forall i :: 0 <= i < |rows| ==>
        && r.value[i].Keys == rows[i].Keys + {"belongs_to_collection"}
        && Cell(r.value[i], "belongs_to_collection") == ExtractCollection(Cell(rows[i], "belongs_to_collection"))
        && forall c :: c != "belongs_to_collection" ==> Cell(r.value[i], c) == Cell(rows[i], c))
  {
  }

  // ---------------------------------------------------------------- numbers (transform.py:63-65)

  /** `pd.to_numeric(errors="coerce")` on one cell: numbers pass, NA stays NA, and any other
      value goes to `parse`, which stands for pandas' own parsing; a failed parse is NA. */
  function Coerce(v: Value, parse: Value -> Option<real>): (r: Value)
    ensures r == Missing || r.Num?
    ensures v.Num? ==> r == v
    ensures v == Missing ==> r == Missing
    ensures !v.Num? && v != Missing ==> (r.Num? <==> parse(v).Some?)
    ensures !v.Num? && v != Missing && parse(v).Some? ==> r == Num(parse(v).value)
  {
    match v
    case Missing => Missing
    case Num(_) => v
    case _ => if parse(v).Some? then Num(parse(v).value) else Missing
  }

  function CoerceRow(row: Row, column: string, parse: Value -> Option<real>): Row {
    row[column := Coerce(Cell(row, column), parse)]
  }

  function CoerceColumn(rows: seq<Row>, column: string, parse: Value -> Option<real>): seq<Row> {
    seq(|rows|, i requires 0 <= i < |rows| => CoerceRow(rows[i], column, parse))
  }

  function NumericRow(row: Row, names: seq<string>, parse: Value -> Option<real>): Row
    decreases names
  {
    if names == [] then row else NumericRow(CoerceRow(row, names[0], parse), names[1..], parse)
  }

  /** One pass of the `for col in numeric_cols` loop per name, in order. */
  function NumericStage(columns: set<string>, rows: seq<Row>, names: seq<string>, parse: Value -> Option<real>): (r: Result<seq<Row>>)
    decreases names
    ensures r.Ok? <==> forall n :: n in names ==> n in columns
    ensures r.Ok? ==> (|r.value| == |rows| &&
      forall i :: 0 <= i < |rows| ==> r.value[i] == NumericRow(rows[i], names, parse))
  {
    if names == [] then Ok(rows)
    else if names[0] !in columns then Err(KeyError(names[0]))
    else NumericStage(columns, CoerceColumn(rows, names[0], parse), names[1..], parse)
  }

  // ---------------------------------------------------------------- dates (transform.py:67)

  /** `pd.to_datetime(errors="coerce")` on one cell; `parse` stands for pandas' date parsing. */
  function ParseDate(v: Value, parse: Value -> Option<int>): (r: Value)
    ensures r == Missing || r.Timestamp?
    ensures r.Timestamp? <==> v != Missing && parse(v).Some?
    ensures r.Timestamp? ==> r.t == parse(v).value
  {
    if v == Missing then Missing
    else if parse(v).Some? then Timestamp(parse(v).value)
    else Missing
  }

  function DateRow(row: Row, parse: Value -> Option<int>): Row {
    row["release_date" := ParseDate(Cell(row, "release_date"), parse)]
  }

  function DateStage(columns: set<string>, rows: seq<Row>, parse: Value -> Option<int>): Result<seq<Row>> {
    if "release_date" !in columns then Err(KeyError("release_date"))
    else Ok(seq(|rows|, i requires 0 <= i < |rows| => DateRow(rows[i], parse)))
  }

  /** The date step raises KeyError without its column; otherwise every row gets its parsed
      release date and keeps every other cell. */
  lemma DateStageCells(columns: set<string>, rows: seq<Row>, parse: Value -> Option<int>)
    ensures var r := DateStage(columns, rows, parse);
      && (r.Ok? <==> "release_date" in columns)
      && (r.Err? ==> r.error == KeyError("release_date"))
      && (r.Ok? ==> |r.value| == |rows| && forall i :: 0 <= i < |rows| ==>
        && r.value[i].Keys == rows[i].Keys + {"release_date"}
        && Cell(r.value[i], "release_date") == ParseDate(Cell(rows[i], "release_date"), parse)
        && forall c :: c != "release_date" ==> Cell(r.value[i], c) == Cell(rows[i], c))
  {
  }

  // ---------------------------------------------------------------- zero and money (transform.py:70-74)

  /** `.replace(0, pd.NA)`: an exact zero becomes NA. */
  function ZeroAsMissing(v: Value): (r: Value)
    ensures r != Num(0.0)
    ensures v != Num(0.0) ==> r == v
    ensures v == Num(0.0) ==> r == Missing
  {
    if v == Num(0.0) then Missing else v
  }

  function ZeroRow(row: Row): Row {
    var budget, revenue, runtime := Cell(row, "budget"), Cell(row, "revenue"), Cell(row, "runtime");
    row["budget" := ZeroAsMissing(budget)]["revenue" := ZeroAsMissing(revenue)]["runtime" := ZeroAsMissing(runtime)]
  }

  function ZeroStage(rows: seq<Row>): seq<Row> {
    seq(|rows|, i requires 0 <= i < |rows| => ZeroRow(rows[i]))
  }

  /** The zero step turns a zero budget, revenue or runtime into NA, row by row, and keeps
      every other cell. */
  lemma ZeroStageCells(rows: seq<Row>)
    ensures var r := ZeroStage(rows);
      && |r| == |rows|
      && forall i :: 0 <= i < |rows| ==>
        && r[i].Keys == rows[i].Keys + {"budget", "revenue", "runtime"}
        && Cell(r[i], "budget") == ZeroAsMissing(Cell(rows[i], "budget"))
        && Cell(r[i], "revenue") == ZeroAsMissing(Cell(rows[i], "revenue"))
        && Cell(r[i], "runtime") == ZeroAsMissing(Cell(rows[i], "runtime"))
        && forall c :: c != "budget" && c != "revenue" && c != "runtime" ==> Cell(r[i], c) == Cell(rows[i], c)
  {
  }

  /** `x / 1_000_000`; NA stays NA. */
  function Millions(v: Value): (r: Value)
    ensures r == Missing || r.Num?
    ensures r.Num? <==> v.Num?
    ensures r.Num? ==> r.x * 1000000.0 == v.x
  {
    if v.Num? then Num(v.x / 1000000.0) else Missing
  }

  function MusdRow(row: Row): Row {
    row["budget_musd" := Millions(Cell(row, "budget"))]["revenue_musd" := Millions(Cell(row, "revenue"))]
  }

  function MusdStage(rows: seq<Row>): seq<Row> {
    seq(|rows|, i requires 0 <= i < |rows| => MusdRow(rows[i]))
  }

  /** The money step adds `budget_musd` and `revenue_musd`, the budget and revenue in
      millions, to every row and keeps every other cell. */
  lemma MusdStageCells(rows: seq<Row>)
    ensures var r := MusdStage(rows);
      && |r| == |rows|
      && forall i :: 0 <= i < |rows| ==>
        && r[i].Keys == rows[i].Keys + {"budget_musd", "revenue_musd"}
        && Cell(r[i], "budget_musd") == Millions(Cell(rows[i], "budget"))
        && Cell(r[i], "revenue_musd") == Millions(Cell(rows[i], "revenue"))
        && forall c :: c != "budget_musd" && c != "revenue_musd" ==> Cell(r[i], c) == Cell(rows[i], c)
  {
  }

  // ---------------------------------------------------------------- one record, every step up to the filter

  /** The steps that can raise inside a helper: credits and name lists (transform.py:50-58). */
  function EarlyRow(row: Row): Result<Row> {
    var credited :- CreditsRow(row);
    NamesRow(credited, JsonColumns)
  }

  /** The columns the steps of transform.py:60-74 write. */
  const LateColumns: set<string> := {
    "belongs_to_collection", "budget", "revenue", "popularity", "vote_count", "vote_average",
    "runtime", "release_date", "budget_musd", "revenue_musd"
  }

  /** One cell after the steps that cannot raise (transform.py:60-74): each depends on its
      own raw cell alone, the money columns on the raw budget or revenue. */
  function LateCell(row: Row, c: string, number: Value -> Option<real>, date: Value -> Option<int>): Value {
    if c == "budget_musd" then Millions(ZeroAsMissing(Coerce(Cell(row, "budget"), number)))
    else if c == "revenue_musd" then Millions(ZeroAsMissing(Coerce(Cell(row, "revenue"), number)))
    else if c == "budget" || c == "revenue" || c == "runtime" then ZeroAsMissing(Coerce(Cell(row, c), number))
    else if c == "popularity" || c == "vote_count" || c == "vote_average" then Coerce(Cell(row, c), number)
    else if c == "release_date" then ParseDate(Cell(row, c), date)
    else if c == "belongs_to_collection" then ExtractCollection(Cell(row, c))
    else Cell(row, c)
  }

  /** The steps that cannot raise, cell by cell; `LateSteps` shows that running them one
      after another gives this row. */
  function LateRow(row: Row, number: Value -> Option<real>, date: Value -> Option<int>): (r: Row)
    ensures r.Keys == row.Keys + LateColumns
  {
    map c | c in row.Keys + LateColumns :: LateCell(row, c, number, date)
  }

  /** What the steps of transform.py:46-74 make of one record. */
  function PrepareRow(record: Row, number: Value -> Option<real>, date: Value -> Option<int>): Result<Row> {
    var early :- EarlyRow(record - Denylist);
    Ok(LateRow(early, number, date))
  }

  function EarlyStages(columns: set<string>, rows: seq<Row>): (r: Result<seq<Row>>)
    ensures r.Ok? <==> ("credits" in columns && (forall n :: n in JsonColumns ==> n in columns) &&
      forall i :: 0 <= i < |rows| ==> EarlyRow(rows[i]).Ok?)
    ensures r.Ok? ==> (|r.value| == |rows| &&
      forall i :: 0 <= i < |rows| ==> EarlyRow(rows[i]) == Ok(r.value[i]))
  {
    var credited :- CreditsStage(columns, rows);
    NamesStage(columns, credited, JsonColumns)
  }

  function LateStages(columns: set<string>, rows: seq<Row>, number: Value -> Option<real>, date: Value -> Option<int>): (r: Result<seq<Row>>)
    ensures r.Ok? <==> ("belongs_to_collection" in columns && (forall n :: n in NumericColumns ==> n in columns) &&
      "release_date" in columns)
    ensures r.Ok? ==> (|r.value| == |rows| &&
      forall i :: 0 <= i < |rows| ==> r.value[i] == LateRow(rows[i], number, date))
  {
    var collected :- CollectionStage(columns, rows);
    var coerced :- NumericStage(columns, collected, NumericColumns, number);
    var dated :- DateStage(columns, coerced, date);
    var done := MusdStage(ZeroStage(dated));
    assert forall i :: 0 <= i < |rows| ==> done[i] == LateRow(rows[i], number, date) by {
      forall i | 0 <= i < |rows| ensures done[i] == LateRow(rows[i], number, date) {
        LateSteps(rows[i], number, date);
      }
    }
    Ok(done)
  }

  // ---------------------------------------------------------------- the late steps, one at a time

  lemma LateRowCell(row: Row, number: Value -> Option<real>, date: Value -> Option<int>, c: string)
    ensures Cell(LateRow(row, number, date), c) == LateCell(row, c, number, date)
  {
  }

  lemma CoerceTwice(v: Value, parse: Value -> Option<real>)
    ensures Coerce(Coerce(v, parse), parse) == Coerce(v, parse)
  {
  }

  /** After the numeric loop a listed column holds its coerced value, whether or not the list
      names it twice, and every other column is untouched. */
  lemma {:induction false} NumericRowCell(row: Row, names: seq<string>, parse: Value -> Option<real>, c: string)
    ensures Cell(NumericRow(row, names, parse), c) == if c in names then Coerce(Cell(row, c), parse) else Cell(row, c)
    decreases names
  {
    if names != [] {
      var next := CoerceRow(row, names[0], parse);
      NumericRowCell(next, names[1..], parse, c);
      assert c in names <==> c == names[0] || c in names[1..];
      if c == names[0] {
        CoerceTwice(Cell(row, c), parse);
      }
    }
  }

  lemma {:induction false} NumericRowKeys(row: Row, names: seq<string>, parse: Value -> Option<real>, c: string)
    ensures c in NumericRow(row, names, parse) <==> c in row || c in names
    decreases names
  {
    if names != [] {
      NumericRowKeys(CoerceRow(row, names[0], parse), names[1..], parse, c);
    }
  }

  lemma CollectionCell(row: Row, c: string)
    ensures Cell(CollectionRow(row), c) ==
      if c == "belongs_to_collection" then ExtractCollection(Cell(row, c)) else Cell(row, c)
  {
  }

  lemma DateCell(row: Row, date: Value -> Option<int>, c: string)
    ensures Cell(DateRow(row, date), c) == if c == "release_date" then ParseDate(Cell(row, c), date) else Cell(row, c)
  {
  }

  lemma ZeroCell(row: Row, c: string)
    ensures Cell(ZeroRow(row), c) ==
      if c == "budget" || c == "revenue" || c == "runtime" then ZeroAsMissing(Cell(row, c)) else Cell(row, c)
  {
  }

  lemma MusdCell(row: Row, c: string)
    ensures Cell(MusdRow(row), c) ==
      if c == "budget_musd" then Millions(Cell(row, "budget"))
      else if c == "revenue_musd" then Millions(Cell(row, "revenue"))
      else Cell(row, c)
  {
  }

  /** One cell after the collection step and the numeric loop. */
  lemma CoercedCell(row: Row, number: Value -> Option<real>, c: string)
    ensures Cell(NumericRow(CollectionRow(row), NumericColumns, number), c) ==
      if c in NumericColumns then Coerce(Cell(row, c), number)
      else if c == "belongs_to_collection" then ExtractCollection(Cell(row, c))
      else Cell(row, c)
  {
    NumericRowCell(CollectionRow(row), NumericColumns, number, c);
    CollectionCell(row, c);
  }

  /** One cell through the late steps in source order. */
  lemma LateStepsCell(row: Row, number: Value -> Option<real>, date: Value -> Option<int>, c: string)
    ensures Cell(MusdRow(ZeroRow(DateRow(NumericRow(CollectionRow(row), NumericColumns, number), date))), c) ==
      LateCell(row, c, number, date)
  {
    var coerced := NumericRow(CollectionRow(row), NumericColumns, number);
    CoercedCell(row, number, c);
    CoercedCell(row, number, "budget");
    CoercedCell(row, number, "revenue");
    LateTailCell(row, coerced, number, date, c);
  }

  /** The late steps after the numeric loop, given what the loop left in the cells they read. */
  lemma LateTailCell(row: Row, coerced: Row, number: Value -> Option<real>, date: Value -> Option<int>, c: string)
    requires Cell(coerced, c) ==
      if c in {"budget", "revenue", "popularity", "vote_count", "vote_average", "runtime"} then Coerce(Cell(row, c), number)
      else if c == "belongs_to_collection" then ExtractCollection(Cell(row, c))
      else Cell(row, c)
    requires Cell(coerced, "budget") == Coerce(Cell(row, "budget"), number)
    requires Cell(coerced, "revenue") == Coerce(Cell(row, "revenue"), number)
    ensures Cell(MusdRow(ZeroRow(DateRow(coerced, date))), c) == LateCell(row, c, number, date)
  {
    LateTail(coerced, date, c);
  }

  /** The date, zero and money steps on one cell. */
  lemma LateTail(coerced: Row, date: Value -> Option<int>, c: string)
    ensures Cell(MusdRow(ZeroRow(DateRow(coerced, date))), c) ==
      if c == "budget_musd" then Millions(ZeroAsMissing(Cell(coerced, "budget")))
      else if c == "revenue_musd" then Millions(ZeroAsMissing(Cell(coerced, "revenue")))
      else if c == "budget" || c == "revenue" || c == "runtime" then ZeroAsMissing(Cell(coerced, c))
      else if c == "release_date" then ParseDate(Cell(coerced, c), date)
      else Cell(coerced, c)
  {
    var dated := DateRow(coerced, date);
    MusdCell(ZeroRow(dated), c);
    ZeroCell(dated, c);
    ZeroCell(dated, "budget");
    ZeroCell(dated, "revenue");
    DateCell(coerced, date, c);
    DateCell(coerced, date, "budget");
    DateCell(coerced, date, "revenue");
  }

  lemma LateStepsKeys(row: Row, number: Value -> Option<real>, date: Value -> Option<int>)
    ensures MusdRow(ZeroRow(DateRow(NumericRow(CollectionRow(row), NumericColumns, number), date))).Keys ==
      row.Keys + LateColumns
  {
    var coerced := NumericRow(CollectionRow(row), NumericColumns, number);
    CoercedKeys(row, number);
    TailKeys(coerced, date);
  }

  lemma CoercedKeys(row: Row, number: Value -> Option<real>)
    ensures NumericRow(CollectionRow(row), NumericColumns, number).Keys ==
      row.Keys + {"belongs_to_collection", "budget", "revenue", "popularity", "vote_count", "vote_average", "runtime"}
  {
    forall c ensures c in NumericRow(CollectionRow(row), NumericColumns, number) <==>
      c in row || c in NumericColumns || c == "belongs_to_collection" {
      NumericRowKeys(CollectionRow(row), NumericColumns, number, c);
    }
  }

  lemma TailKeys(coerced: Row, date: Value -> Option<int>)
    ensures MusdRow(ZeroRow(DateRow(coerced, date))).Keys ==
      coerced.Keys + {"release_date", "budget", "revenue", "runtime", "budget_musd", "revenue_musd"}
  {
  }

  /** Running the late steps one after another (transform.py:60-74) gives `LateRow`. */
  lemma LateSteps(row: Row, number: Value -> Option<real>, date: Value -> Option<int>)
    ensures MusdRow(ZeroRow(DateRow(NumericRow(CollectionRow(row), NumericColumns, number), date))) ==
      LateRow(row, number, date)
  {
    var done := MusdRow(ZeroRow(DateRow(NumericRow(CollectionRow(row), NumericColumns, number), date)));
    var late := LateRow(row, number, date);
    LateStepsKeys(row, number, date);
    forall c ensures Cell(done, c) == Cell(late, c) {
      LateStepsCell(row, number, date, c);
      LateRowCell(row, number, date, c);
    }
    SameCells(done, late);
  }

  /** Rows with the same columns and the same cells are equal. */
  lemma SameCells(a: Row, b: Row)
    requires a.Keys == b.Keys
    requires forall c :: Cell(a, c) == Cell(b, c)
    ensures a == b
  {
    forall c | c in a ensures a[c] == b[c] {
      assert Cell(a, c) == Cell(b, c);
    }
  }

  /** Every column the steps read with `df[col]` is in the frame. */
  predicate HasRequired(columns: set<string>) {
    && "credits" in columns
    && (forall n :: n in JsonColumns ==> n in columns)
    && "belongs_to_collection" in columns
    && (forall n :: n in NumericColumns ==> n in columns)
    && "release_date" in columns
  }

  /** transform.py:46-74 over the whole frame, step after step. When it succeeds, each row
      is what those steps make of its record alone (`PreparedOk` says when it succeeds). */
  function Prepared(records: seq<Row>, number: Value -> Option<real>, date: Value -> Option<int>): (r: Result<seq<Row>>)
    ensures r.Ok? ==> (|r.value| == |records| &&
      forall i :: 0 <= i < |records| ==> PrepareRow(records[i], number, date) == Ok(r.value[i]))
  {
    var columns := Columns(records) - Denylist;
    var early :- EarlyStages(columns, DropColumns(records));
    LateStages(columns, early, number, date)
  }

  /** The steps fail exactly when a column they read is absent from every record, or a
      helper raises on some record. */
  lemma PreparedOk(records: seq<Row>, number: Value -> Option<real>, date: Value -> Option<int>)
    ensures Prepared(records, number, date).Ok? <==> (HasRequired(Columns(records) - Denylist) &&
      forall i :: 0 <= i < |records| ==> PrepareRow(records[i], number, date).Ok?)
  {
    var columns := Columns(records) - Denylist;
    var dropped := DropColumns(records);
    var early := EarlyStages(columns, dropped);
    if early.Ok? {
      var late := LateStages(columns, early.value, number, date);
      assert Prepared(records, number, date) == late;
    } else {
      assert Prepared(records, number, date).Err?;
      if HasRequired(columns) {
        var i :| 0 <= i < |records| && EarlyRow(dropped[i]).Err?;
        assert PrepareRow(records[i], number, date).Err?;
      }
    }
  }

  // ---------------------------------------------------------------- filter, projection, KPIs (transform.py:77-91)

  /** The number of cells of a row that are not NA. */
  function NonMissing(row: Row): nat {
    |set c | c in row && row[c] != Missing|
  }

  /** The row test of `dropna(thresh=10)`. */
  predicate Complete(row: Row) {
    NonMissing(row) >= Threshold
  }

  /** `[c for c in final_columns if c in clean_df.columns]`. */
  function Selected(columns: set<string>): (r: seq<string>)
    ensures forall c :: c in r <==> c in FinalColumns && c in columns + DerivedColumns
  {
    Filter(FinalColumns, c => c in columns + DerivedColumns)
  }

  /** `revenue_musd - budget_musd`; NA when either is NA. */
  function Profit(revenue: Value, budget: Value): (r: Value)
    ensures r.Num? <==> revenue.Num? && budget.Num?
    ensures r.Num? ==> r.x + budget.x == revenue.x
    ensures !r.Num? ==> r == Missing
  {
    if revenue.Num? && budget.Num? then Num(revenue.x - budget.x) else Missing
  }

  /** `revenue_musd / budget_musd` with an infinite quotient replaced by NA. Over exact reals
      the quotient is infinite (or NaN) exactly when the budget is zero. */
  function Roi(revenue: Value, budget: Value): (r: Value)
    ensures r.Num? <==> revenue.Num? && budget.Num? && budget.x != 0.0
    ensures r.Num? ==> r.x * budget.x == revenue.x
    ensures !r.Num? ==> r == Missing
  {
    if revenue.Num? && budget.Num? && budget.x != 0.0 then Num(revenue.x / budget.x) else Missing
  }

  function WithKpis(row: Row): (r: Row)
    ensures r.Keys == row.Keys + {"profit", "roi"}
    ensures forall c :: c != "profit" && c != "roi" ==> Cell(r, c) == Cell(row, c)
    ensures Cell(r, "profit") == Profit(Cell(row, "revenue_musd"), Cell(row, "budget_musd"))
    ensures Cell(r, "roi") == Roi(Cell(row, "revenue_musd"), Cell(row, "budget_musd"))
  {
    var revenue, budget := Cell(row, "revenue_musd"), Cell(row, "budget_musd");
    row["profit" := Profit(revenue, budget)]["roi" := Roi(revenue, budget)]
  }

  function KpiStage(rows: seq<Row>): seq<Row> {
    seq(|rows|, i requires 0 <= i < |rows| => WithKpis(rows[i]))
  }

  /** The KPI step adds `profit` and `roi` to every row, computed from that row's money
      cells, and keeps every other cell. */
  lemma KpiStageCells(rows: seq<Row>)
    ensures var r := KpiStage(rows);
      && |r| == |rows|
      && forall i :: 0 <= i < |rows| ==>
        && r[i].Keys == rows[i].Keys + {"profit", "roi"}
        && Cell(r[i], "profit") == Profit(Cell(rows[i], "revenue_musd"), Cell(rows[i], "budget_musd"))
        && Cell(r[i], "roi") == Roi(Cell(rows[i], "revenue_musd"), Cell(rows[i], "budget_musd"))
        && forall c :: c != "profit" && c != "roi" ==> Cell(r[i], c) == Cell(rows[i], c)
  {
  }

  /** transform() as a whole (transform.py:40-94). */
  function Transformed(records: seq<Row>, number: Value -> Option<real>, date: Value -> Option<int>): (r: Result<Table>)
    ensures r.Ok? <==> Prepared(records, number, date).Ok?
    ensures r.Err? ==> r.error == Prepared(records, number, date).error
    ensures r.Ok? ==> |r.value.rows| <= |records|
  {
    var rows :- Prepared(records, number, date);
    var selected := Selected(Columns(records) - Denylist);
    Ok(Table(selected + KpiColumns, KpiStage(ProjectRows(Filter(rows, Complete), selected))))
  }

  /** transform.py:50-53: the four credits columns, one whole-column pass each. */
  method ApplyCredits(columns: set<string>, rows: seq<Row>) returns (r: Result<seq<Row>>)
    ensures r == CreditsStage(columns, rows)
  {
    if "credits" !in columns {
      return Err(KeyError("credits"));
    }
    var next := rows;
    next :- ApplyColumn(next, "credits", "cast", ExtractCast);
    next :- ApplyColumn(next, "credits", "director", ExtractDirector);
    next :- ApplyColumn(next, "credits", "cast_size", ExtractCastSize);
    next :- ApplyColumn(next, "credits", "crew_size", ExtractCrewSize);
    r := Ok(next);
  }

  /** The `for col in json_columns` loop (transform.py:56-58). */
  method ApplyNames(columns: set<string>, rows: seq<Row>) returns (r: Result<seq<Row>>)
    ensures r == NamesStage(columns, rows, JsonColumns)
  {
    var next := rows;
    for k := 0 to |JsonColumns|
      invariant NamesStage(columns, next, JsonColumns[k..]) == NamesStage(columns, rows, JsonColumns)
    {
      var column := JsonColumns[k];
      assert JsonColumns[k..][1..] == JsonColumns[k + 1..];
      if column !in columns {
        return Err(KeyError(column));
      }
      next :- ApplyColumn(next, column, column, ExtractNames);
    }
    r := Ok(next);
  }

  /** The `for col in numeric_cols` loop (transform.py:63-65). */
  method CoerceNumbers(columns: set<string>, rows: seq<Row>, number: Value -> Option<real>) returns (r: Result<seq<Row>>)
    ensures r == NumericStage(columns, rows, NumericColumns, number)
  {
    var next := rows;
    for k := 0 to |NumericColumns|
      invariant NumericStage(columns, next, NumericColumns[k..], number) ==
        NumericStage(columns, rows, NumericColumns, number)
    {
      var column := NumericColumns[k];
      assert NumericColumns[k..][1..] == NumericColumns[k + 1..];
      if column !in columns {
        return Err(KeyError(column));
      }
      next := CoerceColumn(next, column, number);
    }
    r := Ok(next);
  }

  /** transform() step by step, as transform.py:43-94 reassigns `clean_df`. */
  method Transform(records: seq<Row>, number: Value -> Option<real>, date: Value -> Option<int>)
    returns (r: Result<Table>)
    ensures r == Transformed(records, number, date)
  {
    var columns := Columns(records) - Denylist;
    var rows := DropColumns(records);
    rows :- ApplyCredits(columns, rows);
    rows :- ApplyNames(columns, rows);
    rows :- CollectionStage(columns, rows);
    rows :- CoerceNumbers(columns, rows, number);
    rows :- DateStage(columns, rows, date);
    rows := ZeroStage(rows);
    rows := MusdStage(rows);
    rows := Filter(rows, Complete);
    var selected := Selected(columns);
    rows := ProjectRows(rows, selected);
    rows := KpiStage(rows);
    r := Ok(Table(selected + KpiColumns, rows));
  }
}
