/** The read-only report queries of visualization.py over the table transform() returns:
    the franchise/standalone partition and its column means, the two grouped summaries,
    the two searches, and the genre explode that feeds the ROI box plot. None of them
    changes its input; each builds new rows from masks, groups, sorts and `head()`. */
module Reports {
  import opened Frame
  import opened Seqs
  import opened Text

  /** `df[[c1, c2, ...]]` or a sequence of `df[c]`: the first label the frame lacks raises KeyError. */
  function Require(t: Table, needed: seq<string>): (r: Result<()>)
    ensures r.Ok? <==> forall c :: c in needed ==> c in t.columns
    ensures r.Err? ==> exists i :: (0 <= i < |needed| && r.error == KeyError(needed[i]) &&
      needed[i] !in t.columns && forall j :: 0 <= j < i ==> needed[j] in t.columns)
  {
    if needed == [] then Ok(())
    else if needed[0] !in t.columns then Err(KeyError(needed[0]))
    else
      var r := Require(t, needed[1..]);
      assert r.Err? ==> exists i :: (1 <= i < |needed| && r.error == KeyError(needed[i]) &&
        needed[i] !in t.columns && forall j :: 0 <= j < i ==> needed[j] in t.columns) by {
        if r.Err? {
          var i :| 0 <= i < |needed[1..]| && r.error == KeyError(needed[1..][i]) &&
            needed[1..][i] !in t.columns && forall j :: 0 <= j < i ==> needed[1..][j] in t.columns;
          assert needed[i + 1] == needed[1..][i];
        }
      }
      r
  }

  // ---------------------------------------------------------------------------------------
  // Franchise versus standalone (visualization.py:86-94)
  // ---------------------------------------------------------------------------------------

  const Collection: string := "belongs_to_collection"

  /** The columns whose means franchise_vs_standalone_stats reports, in order. */
  const StatColumns: seq<string> := ["revenue_musd", "roi", "budget_musd", "popularity", "vote_average"]

  /** `belongs_to_collection.notna()`. */
  predicate InFranchise(row: Row) {
    Cell(row, Collection) != Missing
  }

  /** The two masks of visualization.py:87-88 (and 69-70), `notna()` and its negation `isna()`:
      they split the rows into two subsequences that keep the original order and together hold
      every row exactly once. */
  function Partition(t: Table): (r: Result<(seq<Row>, seq<Row>)>)
    ensures r.Ok? <==> Collection in t.columns
    ensures r.Err? ==> r.error == KeyError(Collection)
    ensures r.Ok? ==> var (franchise, standalone) := r.value;
      && (forall row :: row in franchise <==> row in t.rows && InFranchise(row))
      && (forall row :: row in standalone <==> row in t.rows && Cell(row, Collection) == Missing)
      && multiset(franchise) + multiset(standalone) == multiset(t.rows)
      && IsSubseq(franchise, t.rows) && IsSubseq(standalone, t.rows)
  {
    if Collection !in t.columns then Err(KeyError(Collection))
    else
      FilterComplement(t.rows, InFranchise);
      FilterIsSubseq(t.rows, InFranchise);
      RejectIsSubseq(t.rows, InFranchise);
      Ok((Filter(t.rows, InFranchise), Reject(t.rows, InFranchise)))
  }

  /** The numbers of column `c`, in row order; NA cells are skipped, as `sum` and `mean` skip them. */
  function Numbers(rows: seq<Row>, c: string): (r: seq<real>)
    ensures |r| <= |rows|
  {
    if rows == [] then []
    else
      var v := Number(Cell(rows[0], c));
      (if v.Some? then [v.value] else []) + Numbers(rows[1..], c)
  }

  /** The numbers of a column are exactly the values of its numeric cells. */
  lemma {:induction false} NumbersOfColumn(rows: seq<Row>, c: string)
    ensures forall x :: x in Numbers(rows, c) <==> exists row :: row in rows && Cell(row, c) == Num(x)
  {
    if rows != [] {
      NumbersOfColumn(rows[1..], c);
      assert forall row :: row in rows <==> row == rows[0] || row in rows[1..];
    }
  }

  function Sum(xs: seq<real>): real {
    if xs == [] then 0.0 else xs[0] + Sum(xs[1..])
  }

  /** `Series.mean()`: NA for a column without numbers. */
  function Mean(xs: seq<real>): (r: Option<real>)
    ensures r.Some? <==> |xs| > 0
    ensures r.Some? ==> r.value * (|xs| as real) == Sum(xs)
  {
    if xs == [] then None else Some(Sum(xs) / (|xs| as real))
  }

  /** `df[columns].mean()`, one entry per column. */
  function Means(rows: seq<Row>, columns: seq<string>): (r: seq<Option<real>>)
    ensures |r| == |columns|
  {
    seq(|columns|, i requires 0 <= i < |columns| => Mean(Numbers(rows, columns[i])))
  }

  /** franchise_vs_standalone_stats (visualization.py:86-91): the means of the five statistic
      columns over each side of the partition. */
  function FranchiseVsStandalone(t: Table): (r: Result<(seq<Option<real>>, seq<Option<real>>)>)
    ensures r.Ok? <==> Collection in t.columns && forall c :: c in StatColumns ==> c in t.columns
    ensures r.Err? && Collection !in t.columns ==> r.error == KeyError(Collection)
    ensures r.Ok? ==> (|r.value.0| == |r.value.1| == |StatColumns| &&
      forall i :: 0 <= i < |StatColumns| ==>
        && r.value.0[i] == Mean(Numbers(Partition(t).value.0, StatColumns[i]))
        && r.value.1[i] == Mean(Numbers(Partition(t).value.1, StatColumns[i])))
  {
    var (franchise, standalone) :- Partition(t);
    var _ :- Require(t, StatColumns);
    Ok((Means(franchise, StatColumns), Means(standalone, StatColumns)))
  }

  lemma {:induction false} SumAppend(a: seq<real>, b: seq<real>)
    ensures Sum(a + b) == Sum(a) + Sum(b)
  {
    if a == [] {
      assert a + b == b;
    } else {
      assert (a + b)[1..] == a[1..] + b;
      SumAppend(a[1..], b);
    }
  }

  lemma {:induction false} NumbersAppend(a: seq<Row>, b: seq<Row>, c: string)
    ensures Numbers(a + b, c) == Numbers(a, c) + Numbers(b, c)
  {
    if a == [] {
      assert a + b == b;
    } else {
      assert (a + b)[0] == a[0];
      assert (a + b)[1..] == a[1..] + b;
      NumbersAppend(a[1..], b, c);
    }
  }

  /** The partition loses no number: over any column, the two sides' counts and sums of
      non-NA values add up to those of the whole table, so the overall mean is the
      count-weighted mean of the two reported means. */
  lemma {:induction false} PartitionTotals(rows: seq<Row>, c: string)
    ensures |Numbers(Filter(rows, InFranchise), c)| + |Numbers(Reject(rows, InFranchise), c)| == |Numbers(rows, c)|
    ensures Sum(Numbers(Filter(rows, InFranchise), c)) + Sum(Numbers(Reject(rows, InFranchise), c)) == Sum(Numbers(rows, c))
  {
    if rows != [] {
      var first, rest := rows[0], rows[1..];
      PartitionTotals(rest, c);
      var f, s := Filter(rest, InFranchise), Reject(rest, InFranchise);
      var one := Numbers([first], c);
      assert Numbers(rows, c) == one + Numbers(rest, c);
      SumAppend(one, Numbers(rest, c));
      if InFranchise(first) {
        assert Filter(rows, InFranchise) == [first] + f;
        assert Reject(rows, InFranchise) == s;
        NumbersAppend([first], f, c);
        SumAppend(one, Numbers(f, c));
      } else {
        assert Reject(rows, InFranchise) == [first] + s;
        assert Filter(rows, InFranchise) == f;
        NumbersAppend([first], s, c);
        SumAppend(one, Numbers(s, c));
      }
    }
  }

  // ---------------------------------------------------------------------------------------
  // Grouping (visualization.py:98-121)
  // ---------------------------------------------------------------------------------------

  /** How many groups the two summaries keep: `head()` with its default of five. */
  const TopCount: nat := 5

  /** The distinct non-NA values of column `c`, one per group of `groupby(c)`, in order of first
      appearance. */
  function Keys(rows: seq<Row>, c: string): (r: seq<Value>)
    ensures forall k :: k in r <==> k != Missing && exists row :: row in rows && Cell(row, c) == k
    ensures forall i, j :: 0 <= i < j < |r| ==> r[i] != r[j]
    decreases |rows|
  {
    if rows == [] then []
    else
      var init, last := rows[..|rows| - 1], rows[|rows| - 1];
      assert rows == init + [last];
      var seen := Keys(init, c);
      var k := Cell(last, c);
      if k == Missing || k in seen then seen else seen + [k]
  }

  /** The rows of the group with key `k`. */
  function Members(rows: seq<Row>, c: string, k: Value): seq<Row> {
    Filter(rows, row => Cell(row, c) == k)
  }

  /** `'count'` counts the non-NA cells of a column, not the rows. */
  function Present(rows: seq<Row>, c: string): (r: nat)
    ensures r <= |rows|
  {
    |Filter(rows, row => Cell(row, c) != Missing)|
  }

  /** A group's count is zero exactly when none of its rows has the column. */
  lemma PresentNone(rows: seq<Row>, c: string)
    ensures Present(rows, c) == 0 <==> forall row :: row in rows ==> Cell(row, c) == Missing
  {
    var present := row => Cell(row, c) != Missing;
    var kept := Filter(rows, present);
    if kept != [] {
      assert kept[0] in kept;
      assert present(kept[0]);
    }
    forall row | row in rows && Cell(row, c) != Missing ensures kept != [] {
      assert present(row);
      assert row in kept;
    }
  }

  /** One row of franchise_group_analysis's result. */
  datatype CollectionStats = CollectionStats(
    name: Value, count: nat,
    budgetSum: real, budgetMean: Option<real>,
    revenueSum: real, revenueMean: Option<real>,
    voteMean: Option<real>)

  /** One row of director_group_analysis's result. */
  datatype DirectorStats = DirectorStats(director: Value, count: nat, revenueSum: real, voteMean: Option<real>)

  /** `mean` and `sum` agree over the values `xs`: a mean times the number of values is the
      sum, and values that have no mean (there are none) sum to 0. */
  predicate Agrees(mean: Option<real>, sum: real, xs: seq<real>) {
    && (mean.Some? ==> mean.value * (|xs| as real) == sum)
    && (mean.None? ==> sum == 0.0)
  }

  lemma MeanAgrees(xs: seq<real>)
    ensures Agrees(Mean(xs), Sum(xs), xs)
  {
  }

  /** One group's aggregates: `count` never exceeds the group's rows, and each mean agrees
      with the matching sum over the group's values. */
  function CollectionStatsOf(rows: seq<Row>, name: Value): (r: CollectionStats)
    ensures r.name == name
    ensures r.count <= |Members(rows, Collection, name)|
    ensures Agrees(r.budgetMean, r.budgetSum, Numbers(Members(rows, Collection, name), "budget_musd"))
    ensures Agrees(r.revenueMean, r.revenueSum, Numbers(Members(rows, Collection, name), "revenue_musd"))
    ensures var votes := Numbers(Members(rows, Collection, name), "vote_average");
      Agrees(r.voteMean, Sum(votes), votes)
  {
    var group := Members(rows, Collection, name);
    var budgets, revenues := Numbers(group, "budget_musd"), Numbers(group, "revenue_musd");
    var votes := Numbers(group, "vote_average");
    MeanAgrees(budgets);
    MeanAgrees(revenues);
    MeanAgrees(votes);
    CollectionStats(name, Present(group, "id"),
      Sum(budgets), Mean(budgets), Sum(revenues), Mean(revenues), Mean(votes))
  }

  /** One director's aggregates: `count` never exceeds the group's rows, the revenue sum agrees
      with the mean revenue, and the vote mean agrees with the sum of the votes. */
  function DirectorStatsOf(rows: seq<Row>, director: Value): (r: DirectorStats)
    ensures r.director == director
    ensures r.count <= |Members(rows, "director", director)|
    ensures var revenues := Numbers(Members(rows, "director", director), "revenue_musd");
      Agrees(Mean(revenues), r.revenueSum, revenues)
    ensures var votes := Numbers(Members(rows, "director", director), "vote_average");
      Agrees(r.voteMean, Sum(votes), votes)
  {
    var group := Members(rows, "director", director);
    var revenues, votes := Numbers(group, "revenue_musd"), Numbers(group, "vote_average");
    MeanAgrees(revenues);
    MeanAgrees(votes);
    DirectorStats(director, Present(group, "id"), Sum(revenues), Mean(votes))
  }

  /** The aggregated frame of visualization.py:100-105 before sorting: one entry per group. */
  function CollectionGroups(rows: seq<Row>): (r: seq<CollectionStats>)
    ensures |r| == |Keys(rows, Collection)|
    ensures forall i :: 0 <= i < |r| ==> r[i].name == Keys(rows, Collection)[i]
  {
    var keys := Keys(rows, Collection);
    seq(|keys|, i requires 0 <= i < |keys| => CollectionStatsOf(rows, keys[i]))
  }

  /** The aggregated frame of visualization.py:115-119 before sorting: one entry per director. */
  function DirectorGroups(rows: seq<Row>): (r: seq<DirectorStats>)
    ensures |r| == |Keys(rows, "director")|
    ensures forall i :: 0 <= i < |r| ==> r[i].director == Keys(rows, "director")[i]
  {
    var keys := Keys(rows, "director");
    seq(|keys|, i requires 0 <= i < |keys| => DirectorStatsOf(rows, keys[i]))
  }

  /** The sort key `('revenue_musd', 'sum')`; a sum of no numbers is 0, never NA. */
  function CollectionRevenue(g: CollectionStats): Option<real> {
    Some(g.revenueSum)
  }

  function DirectorRevenue(g: DirectorStats): Option<real> {
    Some(g.revenueSum)
  }

  /** The columns franchise_group_analysis reads, in the order it reads them. */
  const CollectionColumns: seq<string> := [Collection, "id", "budget_musd", "revenue_musd", "vote_average"]

  /** The columns director_group_analysis reads, in the order it reads them. */
  const DirectorColumns: seq<string> := ["director", "id", "revenue_musd", "vote_average"]

  /** franchise_group_analysis (visualization.py:98-109): the groups of the rows with a
      collection, by descending revenue sum, at most five of them, each group at most once. */
  function FranchiseGroups(t: Table): (r: Result<seq<CollectionStats>>)
    ensures r.Ok? <==> forall c :: c in CollectionColumns ==> c in t.columns
    ensures r.Ok? ==> var all := CollectionGroups(Filter(t.rows, InFranchise));
      && |r.value| == (if |all| < TopCount then |all| else TopCount)
      && SortedBy(r.value, CollectionRevenue, true)
      && multiset(r.value) <= multiset(all)
      && (forall g :: g in all && g !in r.value ==>
            |r.value| == TopCount && g.revenueSum <= r.value[TopCount - 1].revenueSum)
  {
    var (franchise, _) :- Partition(t);
    var _ :- Require(t, CollectionColumns);
    var all := CollectionGroups(franchise);
    CollectionTop(all);
    Ok(Take(SortBy(all, CollectionRevenue, true), TopCount))
  }

  lemma CollectionTop(all: seq<CollectionStats>)
    ensures var r := Take(SortBy(all, CollectionRevenue, true), TopCount);
      && |r| == (if |all| < TopCount then |all| else TopCount)
      && SortedBy(r, CollectionRevenue, true)
      && multiset(r) <= multiset(all)
      && (forall g :: g in all && g !in r ==> |r| == TopCount && g.revenueSum <= r[TopCount - 1].revenueSum)
  {
    TopOf(all, TopCount, CollectionRevenue, true);
  }

  /** director_group_analysis (visualization.py:113-121): the same summary per director over
      all rows; rows without a director belong to no group. */
  function DirectorGroupsTop(t: Table): (r: Result<seq<DirectorStats>>)
    ensures r.Ok? <==> forall c :: c in DirectorColumns ==> c in t.columns
    ensures r.Ok? ==> var all := DirectorGroups(t.rows);
      && |r.value| == (if |all| < TopCount then |all| else TopCount)
      && SortedBy(r.value, DirectorRevenue, true)
      && multiset(r.value) <= multiset(all)
      && (forall g :: g in all && g !in r.value ==>
            |r.value| == TopCount && g.revenueSum <= r.value[TopCount - 1].revenueSum)
  {
    var _ :- Require(t, DirectorColumns);
    var all := DirectorGroups(t.rows);
    DirectorTop(all);
    Ok(Take(SortBy(all, DirectorRevenue, true), TopCount))
  }

  lemma DirectorTop(all: seq<DirectorStats>)
    ensures var r := Take(SortBy(all, DirectorRevenue, true), TopCount);
      && |r| == (if |all| < TopCount then |all| else TopCount)
      && SortedBy(r, DirectorRevenue, true)
      && multiset(r) <= multiset(all)
      && (forall g :: g in all && g !in r ==> |r| == TopCount && g.revenueSum <= r[TopCount - 1].revenueSum)
  {
    TopOf(all, TopCount, DirectorRevenue, true);
  }

  /** Every row with a key belongs to exactly one group, and a row whose key is NA to none. */
  lemma GroupMembership(rows: seq<Row>, c: string, row: Row)
    requires row in rows
    ensures Cell(row, c) == Missing ==> forall k :: k in Keys(rows, c) ==> row !in Members(rows, c, k)
    ensures Cell(row, c) != Missing ==> exists i :: 0 <= i < |Keys(rows, c)| && Keys(rows, c)[i] == Cell(row, c)
    ensures forall i, j :: 0 <= i < j < |Keys(rows, c)| && row in Members(rows, c, Keys(rows, c)[i]) ==>
      row !in Members(rows, c, Keys(rows, c)[j])
    ensures forall k :: row in Members(rows, c, k) <==> k == Cell(row, c)
  {
    var keys := Keys(rows, c);
    if Cell(row, c) != Missing {
      assert Cell(row, c) in keys;
    }
  }

  /** A group's entries are the aggregates of exactly the rows carrying its key: the count of
      their present ids and the sums of their non-NA money values. */
  lemma CollectionGroupContents(rows: seq<Row>, g: CollectionStats)
    requires g in CollectionGroups(rows)
    ensures g.name != Missing && exists row :: row in rows && Cell(row, Collection) == g.name
    ensures forall row :: row in Members(rows, Collection, g.name) <==> row in rows && Cell(row, Collection) == g.name
    ensures g.count == Present(Members(rows, Collection, g.name), "id")
    ensures g.revenueSum == Sum(Numbers(Members(rows, Collection, g.name), "revenue_musd"))
    ensures g.budgetSum == Sum(Numbers(Members(rows, Collection, g.name), "budget_musd"))
  {
    var i :| 0 <= i < |CollectionGroups(rows)| && CollectionGroups(rows)[i] == g;
    assert g.name in Keys(rows, Collection);
  }

  lemma DirectorGroupContents(rows: seq<Row>, g: DirectorStats)
    requires g in DirectorGroups(rows)
    ensures g.director != Missing && exists row :: row in rows && Cell(row, "director") == g.director
    ensures forall row :: row in Members(rows, "director", g.director) <==> row in rows && Cell(row, "director") == g.director
    ensures g.count == Present(Members(rows, "director", g.director), "id")
    ensures g.revenueSum == Sum(Numbers(Members(rows, "director", g.director), "revenue_musd"))
  {
    var i :| 0 <= i < |DirectorGroups(rows)| && DirectorGroups(rows)[i] == g;
    assert g.director in Keys(rows, "director");
  }

  // ---------------------------------------------------------------------------------------
  // Searches (visualization.py:125-146)
  // ---------------------------------------------------------------------------------------

  /** `column.str.contains(sub, na=False)` at one cell: a string cell containing `sub`; an NA or
      non-string cell never matches. */
  predicate Has(v: Value, sub: string): (b: bool)
    ensures b ==> v.Str? && |sub| <= |v.s|
    ensures v.Str? ==> (b <==> exists i :: 0 <= i && i + |sub| <= |v.s| && v.s == v.s[..i] + sub + v.s[i + |sub|..])
  {
    v.Str? && Contains(v.s, sub)
  }

  predicate BruceWillisMatch(row: Row) {
    && Has(Cell(row, "genres"), "Science Fiction")
    && Has(Cell(row, "genres"), "Action")
    && Has(Cell(row, "cast"), "Bruce Willis")
  }

  predicate TarantinoMatch(row: Row) {
    Has(Cell(row, "cast"), "Uma Thurman") && Cell(row, "director") == Str("Quentin Tarantino")
  }

  function VoteKey(row: Row): Option<real> {
    Number(Cell(row, "vote_average"))
  }

  function RuntimeKey(row: Row): Option<real> {
    Number(Cell(row, "runtime"))
  }

  /** A mask followed by `sort_values`: exactly the matching rows, each as often as in the input,
      sorted by `key` with NA keys last. */
  function Search(rows: seq<Row>, wanted: Row -> bool, key: Row -> Option<real>, descending: bool): (r: seq<Row>)
    ensures SortedBy(r, key, descending)
    ensures multiset(r) == multiset(Filter(rows, wanted))
    ensures forall row :: row in r <==> row in rows && wanted(row)
  {
    var found := SortBy(Filter(rows, wanted), key, descending);
    assert forall row :: row in found <==> row in multiset(Filter(rows, wanted));
    found
  }

  const BruceWillisColumns: seq<string> := ["title", "genres", "vote_average"]
  const BruceWillisReads: seq<string> := ["genres", "cast", "vote_average", "title"]
  const TarantinoColumns: seq<string> := ["title", "runtime", "director"]
  const TarantinoReads: seq<string> := ["cast", "director", "runtime", "title"]

  /** search_bruce_willis_scifi_action (visualization.py:125-134). */
  function SearchBruceWillis(t: Table): (r: Result<Table>)
    ensures r.Ok? <==> forall c :: c in BruceWillisReads ==> c in t.columns
    ensures r.Ok? ==> r.value.columns == BruceWillisColumns
    ensures r.Ok? ==> r.value.rows == ProjectRows(Search(t.rows, BruceWillisMatch, VoteKey, true), BruceWillisColumns)
  {
    var _ :- Require(t, BruceWillisReads);
    var found := Search(t.rows, BruceWillisMatch, VoteKey, true);
    Ok(Table(BruceWillisColumns, ProjectRows(found, BruceWillisColumns)))
  }

  /** search_uma_thurman_tarantino (visualization.py:138-146). */
  function SearchTarantino(t: Table): (r: Result<Table>)
    ensures r.Ok? <==> forall c :: c in TarantinoReads ==> c in t.columns
    ensures r.Ok? ==> r.value.columns == TarantinoColumns
    ensures r.Ok? ==> r.value.rows == ProjectRows(Search(t.rows, TarantinoMatch, RuntimeKey, false), TarantinoColumns)
  {
    var _ :- Require(t, TarantinoReads);
    var found := Search(t.rows, TarantinoMatch, RuntimeKey, false);
    Ok(Table(TarantinoColumns, ProjectRows(found, TarantinoColumns)))
  }

  /** The search results as the source promises them: sorted by the key (which the projection
      keeps), one projected row per matching input row, and only those. */
  lemma SearchResult(rows: seq<Row>, wanted: Row -> bool, key: Row -> Option<real>, descending: bool,
                     columns: seq<string>, keyColumn: string)
    requires keyColumn in columns
    requires forall row :: key(row) == Number(Cell(row, keyColumn))
    ensures var out := ProjectRows(Search(rows, wanted, key, descending), columns);
      && |out| == |Filter(rows, wanted)|
      && SortedBy(out, key, descending)
      && (forall row :: row in rows && wanted(row) ==> Project(row, columns) in out)
      && (forall j :: 0 <= j < |out| ==> exists row :: row in rows && wanted(row) && out[j] == Project(row, columns))
  {
    var found := Search(rows, wanted, key, descending);
    assert |multiset(found)| == |multiset(Filter(rows, wanted))|;
    ProjectKeepsOrder(found, key, descending, columns, keyColumn);
    ProjectKeepsRows(rows, found, wanted, columns);
  }

  /** Projecting onto columns that include the sort column keeps the rows sorted. */
  lemma ProjectKeepsOrder(found: seq<Row>, key: Row -> Option<real>, descending: bool, columns: seq<string>, keyColumn: string)
    requires keyColumn in columns
    requires forall row :: key(row) == Number(Cell(row, keyColumn))
    requires SortedBy(found, key, descending)
    ensures SortedBy(ProjectRows(found, columns), key, descending)
  {
    var out := ProjectRows(found, columns);
    forall i, j | 0 <= i < j < |out| ensures Precedes(key(out[i]), key(out[j]), descending) {
      assert key(out[i]) == key(found[i]);
      assert key(out[j]) == key(found[j]);
    }
  }

  lemma ProjectKeepsRows(rows: seq<Row>, found: seq<Row>, wanted: Row -> bool, columns: seq<string>)
    requires forall row :: row in found <==> row in rows && wanted(row)
    ensures var out := ProjectRows(found, columns);
      && (forall row :: row in rows && wanted(row) ==> Project(row, columns) in out)
      && (forall j :: 0 <= j < |out| ==> exists row :: row in rows && wanted(row) && out[j] == Project(row, columns))
  {
    var out := ProjectRows(found, columns);
    forall row | row in rows && wanted(row) ensures Project(row, columns) in out {
      var i :| 0 <= i < |found| && found[i] == row;
      assert out[i] == Project(row, columns);
    }
    forall j | 0 <= j < |out| ensures exists row :: row in rows && wanted(row) && out[j] == Project(row, columns) {
      assert found[j] in found;
    }
  }

  /** search_bruce_willis_scifi_action's promise: the genre and cast conditions hold of every
      returned movie (so neither cell was NA), every movie meeting them is returned once per
      occurrence, and the result runs from the highest vote average down, NA last. */
  lemma BruceWillisResult(t: Table)
    requires SearchBruceWillis(t).Ok?
    ensures var out := SearchBruceWillis(t).value.rows;
      && |out| == |Filter(t.rows, BruceWillisMatch)|
      && SortedBy(out, VoteKey, true)
      && (forall row :: row in t.rows && BruceWillisMatch(row) ==> Project(row, BruceWillisColumns) in out)
      && (forall j :: 0 <= j < |out| ==> exists row :: (row in t.rows && out[j] == Project(row, BruceWillisColumns) &&
            Cell(row, "genres").Str? && Contains(Cell(row, "genres").s, "Science Fiction") &&
            Contains(Cell(row, "genres").s, "Action") &&
            Cell(row, "cast").Str? && Contains(Cell(row, "cast").s, "Bruce Willis")))
  {
    SearchResult(t.rows, BruceWillisMatch, VoteKey, true, BruceWillisColumns, "vote_average");
  }

  /** search_uma_thurman_tarantino's promise: exactly the movies whose cast names Uma Thurman
      and whose director is exactly Quentin Tarantino, shortest first, NA runtimes last. */
  lemma TarantinoResult(t: Table)
    requires SearchTarantino(t).Ok?
    ensures var out := SearchTarantino(t).value.rows;
      && |out| == |Filter(t.rows, TarantinoMatch)|
      && SortedBy(out, RuntimeKey, false)
      && (forall row :: row in t.rows && TarantinoMatch(row) ==> Project(row, TarantinoColumns) in out)
      && (forall j :: 0 <= j < |out| ==> exists row :: (row in t.rows && out[j] == Project(row, TarantinoColumns) &&
            Cell(row, "cast").Str? && Contains(Cell(row, "cast").s, "Uma Thurman") &&
            Cell(row, "director") == Str("Quentin Tarantino")))
  {
    SearchResult(t.rows, TarantinoMatch, RuntimeKey, false, TarantinoColumns, "runtime");
  }

  // ---------------------------------------------------------------------------------------
  // Genre explode (visualization.py:26-27)
  // ---------------------------------------------------------------------------------------

  /** One row of the exploded frame: a genre token and the ROI of the movie it came from. */
  datatype Entry = Entry(genre: Value, roi: Value)

  /** `.str.split('|')` at one cell, then `explode`: a string gives its tokens; any other
      non-NA cell gives NaN, which `explode` keeps as a single NA entry. */
  function Tokens(v: Value): (r: seq<Value>)
    ensures |r| >= 1
    ensures v.Str? ==> |r| == Occurrences(v.s, Sep) + 1
    ensures v.Str? ==> forall t :: t in r ==> t.Str? && Sep !in t.s
    ensures !v.Str? ==> r == [Missing]
  {
    if v.Str? then
      var parts := Split(v.s);
      SplitCount(v.s);
      seq(|parts|, i requires 0 <= i < |parts| => Str(parts[i]))
    else [Missing]
  }

  function ExplodeRow(row: Row): seq<Entry> {
    var tokens := Tokens(Cell(row, "genres"));
    seq(|tokens|, i requires 0 <= i < |tokens| => Entry(tokens[i], Cell(row, "roi")))
  }

  /** `dropna()` over the two columns keeps the rows with both a genre list and an ROI. */
  predicate Kept(row: Row) {
    Cell(row, "genres") != Missing && Cell(row, "roi") != Missing
  }

  /** The exploded frame: at least one entry per row that survives `dropna()`, and every entry
      carries the non-NA ROI of such a row. */
  function Exploded(rows: seq<Row>): (r: seq<Entry>)
    ensures |r| >= |Filter(rows, Kept)|
    ensures forall e :: e in r ==> e.roi != Missing && exists row :: row in rows && Kept(row) && e.roi == Cell(row, "roi")
  {
    if rows == [] then []
    else (if Kept(rows[0]) then ExplodeRow(rows[0]) else []) + Exploded(rows[1..])
  }

  /** visualization.py:26-27. */
  function GenreExplode(t: Table): (r: Result<seq<Entry>>)
    ensures r.Ok? <==> "genres" in t.columns && "roi" in t.columns
    ensures r.Ok? ==> r.value == Exploded(t.rows)
  {
    var _ :- Require(t, ["genres", "roi"]);
    Ok(Exploded(t.rows))
  }

  /** The explode works row by row and keeps the row order. */
  lemma {:induction false} ExplodedAppend(a: seq<Row>, b: seq<Row>)
    ensures Exploded(a + b) == Exploded(a) + Exploded(b)
  {
    if a == [] {
      assert a + b == b;
    } else {
      assert (a + b)[0] == a[0];
      assert (a + b)[1..] == a[1..] + b;
      ExplodedAppend(a[1..], b);
    }
  }

  /** One row's contribution: nothing when genres or roi is NA; otherwise one entry per
      `|`-separated token, as many as the separators plus one, each carrying the row's roi, and
      the tokens joined with `|` give back the genres string. */
  lemma ExplodedRow(row: Row)
    ensures !Kept(row) ==> Exploded([row]) == []
    ensures Kept(row) ==> Exploded([row]) == ExplodeRow(row)
    ensures forall e :: e in ExplodeRow(row) ==> e.roi == Cell(row, "roi")
    ensures Cell(row, "genres").Str? ==> var s := Cell(row, "genres").s;
      && |ExplodeRow(row)| == Occurrences(s, Sep) + 1
      && (forall e :: e in ExplodeRow(row) ==> e.genre.Str?)
      && Join(GenreNames(ExplodeRow(row))) == s
    ensures !Cell(row, "genres").Str? ==> ExplodeRow(row) == [Entry(Missing, Cell(row, "roi"))]
  {
    assert [row][1..] == [];
    if Cell(row, "genres").Str? {
      var s := Cell(row, "genres").s;
      SplitCount(s);
      JoinSplit(s);
      assert GenreNames(ExplodeRow(row)) == Split(s);
    }
  }

  /** The genre strings of a run of entries whose genres are all strings. */
  function GenreNames(entries: seq<Entry>): (r: seq<string>)
    ensures |r| == |entries|
    ensures forall i :: 0 <= i < |entries| && entries[i].genre.Str? ==> r[i] == entries[i].genre.s
  {
    seq(|entries|, i requires 0 <= i < |entries| => if entries[i].genre.Str? then entries[i].genre.s else "")
  }
}
