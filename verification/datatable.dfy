/** The interactive data table: a sort configuration cycled by header
    clicks, per-column and global text filters, the sort-then-filter pipeline
    over the row objects, and the distinct values offered by a column's
    filter menu. */
module DataTable {
  import opened Seqs
  import opened Strings
  import opened Response

  datatype Direction = Asc | Desc | Unsorted

  datatype SortConfig = SortConfig(key: string, direction: Direction)

  /** Column filters, an object read back with `Object.entries`: one value
      per column, in order of first assignment. */
  datatype ColumnFilter = ColumnFilter(column: string, value: string)

  datatype TableState = TableState(globalFilter: string, filters: seq<ColumnFilter>, sort: SortConfig)

  const InitialState: TableState := TableState("", [], SortConfig("", Unsorted))

  // ------------------------------------------------------------------ sort

  /** `handleSort`: clicking the sorted column cycles ascending, descending,
      unsorted; clicking another column sorts it ascending. */
  function HandleSort(c: SortConfig, column: string): (r: SortConfig)
    ensures r.key == column
    ensures c.key != column ==> r.direction == Asc
  {
    if c.key == column then
      SortConfig(column, match c.direction
                         case Asc => Desc
                         case Desc => Unsorted
                         case Unsorted => Asc)
    else SortConfig(column, Asc)
  }

  /** Three clicks on the same column come back to where they started, and
      the three directions met on the way are all different. */
  lemma {:induction false} HandleSortCycles(c: SortConfig)
    ensures HandleSort(HandleSort(HandleSort(c, c.key), c.key), c.key) == c
    ensures HandleSort(c, c.key).direction != c.direction
    ensures HandleSort(HandleSort(c, c.key), c.key).direction !in {c.direction, HandleSort(c, c.key).direction}
  {
    match c.direction
    case Asc =>
    case Desc =>
    case Unsorted =>
  }

  // --------------------------------------------------------------- filters

  /** The value of a column filter, `''` when the column has none. */
  function FilterOf(fs: seq<ColumnFilter>, column: string): string {
    if |fs| == 0 then ""
    else if fs[0].column == column then fs[0].value
    else FilterOf(fs[1..], column)
  }

  function Columns(fs: seq<ColumnFilter>): (cs: seq<string>)
    ensures |cs| == |fs| && forall i :: 0 <= i < |fs| ==> cs[i] == fs[i].column
  {
    seq(|fs|, i requires 0 <= i < |fs| => fs[i].column)
  }

  /** `{...prev, [column]: v}`: an existing column is updated in place, a new
      one is added at the end. */
  function SetFilter(fs: seq<ColumnFilter>, column: string, v: string): (r: seq<ColumnFilter>)
    ensures |fs| <= |r|
  {
    if |fs| == 0 then [ColumnFilter(column, v)]
    else if fs[0].column == column then [ColumnFilter(column, v)] + fs[1..]
    else [fs[0]] + SetFilter(fs[1..], column, v)
  }

  /** Setting a filter keeps the columns in order and appends a new one. */
  lemma {:induction false} SetFilterColumns(fs: seq<ColumnFilter>, column: string, v: string)
    ensures Columns(SetFilter(fs, column, v)) == if column in Columns(fs) then Columns(fs) else Columns(fs) + [column]
  {
    if |fs| > 0 {
      assert fs == [fs[0]] + fs[1..];
      ColumnsCons(fs[0], fs[1..]);
      if fs[0].column == column {
        ColumnsCons(ColumnFilter(column, v), fs[1..]);
      } else {
        SetFilterColumns(fs[1..], column, v);
        ColumnsCons(fs[0], SetFilter(fs[1..], column, v));
      }
    }
  }

  lemma ColumnsCons(f: ColumnFilter, rest: seq<ColumnFilter>)
    ensures Columns([f] + rest) == [f.column] + Columns(rest)
  {
    var l, r := Columns([f] + rest), [f.column] + Columns(rest);
    forall i | 0 <= i < |l|
      ensures l[i] == r[i]
    {
      if i > 0 {
        assert ([f] + rest)[i] == rest[i - 1];
      }
    }
  }

  /** Setting a column's filter changes that column's value and no other. */
  lemma {:induction false} SetFilterValues(fs: seq<ColumnFilter>, column: string, v: string)
    ensures FilterOf(SetFilter(fs, column, v), column) == v
    ensures forall c :: c != column ==> FilterOf(SetFilter(fs, column, v), c) == FilterOf(fs, c)
  {
    if |fs| > 0 && fs[0].column != column {
      SetFilterValues(fs[1..], column, v);
      assert SetFilter(fs, column, v)[1..] == SetFilter(fs[1..], column, v);
    }
  }

  /** `handleColumnFilter`: choosing 'all' clears the column's filter; any
      other choice becomes the filter. Other columns keep theirs. */
  function HandleColumnFilter(s: TableState, column: string, value: string): (r: TableState)
    ensures FilterOf(r.filters, column) == (if value == "all" then "" else value)
    ensures forall c :: c != column ==> FilterOf(r.filters, c) == FilterOf(s.filters, c)
    ensures r.globalFilter == s.globalFilter && r.sort == s.sort
  {
    SetFilterValues(s.filters, column, if value == "all" then "" else value);
    s.(filters := SetFilter(s.filters, column, if value == "all" then "" else value))
  }

  /** `clearFilters`: no global filter, no column filters, no sort. */
  function ClearFilters(s: TableState): (r: TableState)
    ensures r.globalFilter == "" && r.filters == [] && r.sort == SortConfig("", Unsorted)
    ensures forall c :: FilterOf(r.filters, c) == ""
  {
    InitialState
  }

  /** The number of columns whose filter is non-empty. */
  function SetFilters(fs: seq<ColumnFilter>): (n: nat)
    ensures n <= |fs|
  {
    if |fs| == 0 then 0 else (if fs[0].value != "" then 1 else 0) + SetFilters(fs[1..])
  }

  /** `activeFiltersCount`: the non-empty column filters, plus one for a
      non-empty global filter. */
  function ActiveFiltersCount(s: TableState): (n: nat)
    ensures n <= |s.filters| + 1
    ensures n == 0 <==> s.globalFilter == "" && forall i :: 0 <= i < |s.filters| ==> s.filters[i].value == ""
  {
    ZeroSetFilters(s.filters);
    SetFilters(s.filters) + (if s.globalFilter != "" then 1 else 0)
  }

  lemma {:induction false} ZeroSetFilters(fs: seq<ColumnFilter>)
    ensures SetFilters(fs) == 0 <==> forall i :: 0 <= i < |fs| ==> fs[i].value == ""
  {
    if |fs| > 0 {
      ZeroSetFilters(fs[1..]);
      assert forall i :: 1 <= i < |fs| ==> fs[i] == fs[1..][i - 1];
    }
  }

  /** With one entry per column, the number of set filters is the number of
      columns whose `FilterOf` is non-empty, so clearing one column's filter
      lowers the count by one exactly when that filter was set. */
  lemma {:induction false} SetFiltersClear(fs: seq<ColumnFilter>, column: string)
    requires Distinct(Columns(fs))
    ensures SetFilters(SetFilter(fs, column, "")) + (if FilterOf(fs, column) != "" then 1 else 0) == SetFilters(fs)
  {
    if |fs| > 0 {
      if fs[0].column == column {
        assert SetFilter(fs, column, "")[1..] == fs[1..];
      } else {
        assert Columns(fs[1..]) == Columns(fs)[1..];
        SetFiltersClear(fs[1..], column);
        assert SetFilter(fs, column, "")[1..] == SetFilter(fs[1..], column, "");
      }
    }
  }

  /** Setting a filter keeps one entry per column. */
  lemma SetFilterDistinct(fs: seq<ColumnFilter>, column: string, v: string)
    requires Distinct(Columns(fs))
    ensures Distinct(Columns(SetFilter(fs, column, v)))
  {
    SetFilterColumns(fs, column, v);
  }

  // ------------------------------------------------------------ cell text

  /** `String(row[column] || '')`: a missing cell, an empty string and the
      number 0 are falsy and read as ''; other numbers are rendered by
      `show`, JavaScript's number-to-string conversion. */
  function CellString(row: RowObject, column: string, show: real -> string): (r: string)
    ensures column !in row || row[column] == Num(0.0) ==> r == ""
    ensures column in row && row[column].Text? ==> r == row[column].text
    ensures column in row && row[column].Num? && row[column].value != 0.0 ==> r == show(row[column].value)
  {
    if column !in row then ""
    else match row[column]
      case Text(t) => t
      case Num(v) => if v == 0.0 then "" else show(v)
  }

  // -------------------------------------------------------------- sorting

  /** Inserts `x` before the first element it does not exceed
      (`cmp(x, y) <= 0`). `SortBy` inserts each element into the sorted rest
      of the list, so it lands in front of the later elements it ties with. */
  function InsertBy(x: RowObject, ys: seq<RowObject>, cmp: (RowObject, RowObject) -> int): (r: seq<RowObject>)
    ensures multiset(r) == multiset(ys) + multiset{x}
  {
    if |ys| == 0 then [x]
    else if cmp(x, ys[0]) <= 0 then [x] + ys
    else
      assert ys == [ys[0]] + ys[1..];
      [ys[0]] + InsertBy(x, ys[1..], cmp)
  }

  /** `[...data].sort(cmp)`, the stable sort JavaScript specifies. */
  function SortBy(xs: seq<RowObject>, cmp: (RowObject, RowObject) -> int): (r: seq<RowObject>)
    ensures multiset(r) == multiset(xs)
  {
    if |xs| == 0 then []
    else
      assert xs == [xs[0]] + xs[1..];
      InsertBy(xs[0], SortBy(xs[1..], cmp), cmp)
  }

  /** A comparator that orders every pair and chains: a total preorder, the
      consistency `Array.prototype.sort` asks of it. */
  ghost predicate TotalPreorder(cmp: (RowObject, RowObject) -> int) {
    && (forall a, b :: cmp(a, b) <= 0 || cmp(b, a) <= 0)
    && (forall a, b, c :: cmp(a, b) <= 0 && cmp(b, c) <= 0 ==> cmp(a, c) <= 0)
  }

  predicate SortedBy(xs: seq<RowObject>, cmp: (RowObject, RowObject) -> int) {
    forall i, j :: 0 <= i < j < |xs| ==> cmp(xs[i], xs[j]) <= 0
  }

  /** The elements of `xs` that tie with `e` under `cmp`, in their order. */
  function SameRank(xs: seq<RowObject>, cmp: (RowObject, RowObject) -> int, e: RowObject): seq<RowObject> {
    if |xs| == 0 then []
    else if cmp(xs[0], e) <= 0 && cmp(e, xs[0]) <= 0 then [xs[0]] + SameRank(xs[1..], cmp, e)
    else SameRank(xs[1..], cmp, e)
  }

  /** Insertion steps over elements that `x` exceeds only, so it never passes
      an element it ties with. */
  lemma {:induction false} InsertByKeepsRank(x: RowObject, ys: seq<RowObject>, cmp: (RowObject, RowObject) -> int, e: RowObject)
    requires TotalPreorder(cmp)
    ensures SameRank(InsertBy(x, ys, cmp), cmp, e) ==
            if cmp(x, e) <= 0 && cmp(e, x) <= 0 then [x] + SameRank(ys, cmp, e) else SameRank(ys, cmp, e)
  {
    if |ys| == 0 || cmp(x, ys[0]) <= 0 {
      assert ([x] + ys)[1..] == ys;
    } else {
      var rest := InsertBy(x, ys[1..], cmp);
      assert ([ys[0]] + rest)[1..] == rest;
      InsertByKeepsRank(x, ys[1..], cmp, e);
    }
  }

  /** The sort is stable: tied elements keep their relative order. */
  lemma {:induction false} SortByStable(xs: seq<RowObject>, cmp: (RowObject, RowObject) -> int, e: RowObject)
    requires TotalPreorder(cmp)
    ensures SameRank(SortBy(xs, cmp), cmp, e) == SameRank(xs, cmp, e)
  {
    if |xs| > 0 {
      SortByStable(xs[1..], cmp, e);
      InsertByKeepsRank(xs[0], SortBy(xs[1..], cmp), cmp, e);
    }
  }

  /** An element that precedes `x` and all of `ys` precedes all of the
      insertion. */
  lemma {:induction false} InsertByAbove(b: RowObject, x: RowObject, ys: seq<RowObject>, cmp: (RowObject, RowObject) -> int)
    requires cmp(b, x) <= 0 && forall k :: 0 <= k < |ys| ==> cmp(b, ys[k]) <= 0
    ensures forall k :: 0 <= k < |InsertBy(x, ys, cmp)| ==> cmp(b, InsertBy(x, ys, cmp)[k]) <= 0
  {
    if |ys| > 0 && cmp(x, ys[0]) > 0 {
      var tail := ys[1..];
      assert forall k :: 0 <= k < |tail| ==> tail[k] == ys[k + 1];
      InsertByAbove(b, x, tail, cmp);
    }
  }

  lemma {:induction false} InsertBySorted(x: RowObject, ys: seq<RowObject>, cmp: (RowObject, RowObject) -> int)
    requires TotalPreorder(cmp) && SortedBy(ys, cmp)
    ensures SortedBy(InsertBy(x, ys, cmp), cmp)
  {
    if |ys| > 0 {
      var tail := ys[1..];
      assert forall k :: 0 <= k < |tail| ==> tail[k] == ys[k + 1];
      if cmp(x, ys[0]) <= 0 {
        SortedCons(x, ys, cmp);
      } else {
        InsertBySorted(x, tail, cmp);
        InsertByAbove(ys[0], x, tail, cmp);
        SortedCons(ys[0], InsertBy(x, tail, cmp), cmp);
      }
    }
  }

  /** An element that precedes the head of a sorted list, or every element
      of it, may be put in front. */
  lemma SortedCons(b: RowObject, ys: seq<RowObject>, cmp: (RowObject, RowObject) -> int)
    requires TotalPreorder(cmp) && SortedBy(ys, cmp)
    requires (|ys| > 0 && cmp(b, ys[0]) <= 0) || forall k :: 0 <= k < |ys| ==> cmp(b, ys[k]) <= 0
    ensures SortedBy([b] + ys, cmp)
  {
  }

  lemma {:induction false} SortBySorted(xs: seq<RowObject>, cmp: (RowObject, RowObject) -> int)
    requires TotalPreorder(cmp)
    ensures SortedBy(SortBy(xs, cmp), cmp)
  {
    if |xs| > 0 {
      SortBySorted(xs[1..], cmp);
      InsertBySorted(xs[0], SortBy(xs[1..], cmp), cmp);
    }
  }

  /** `sortedData`: the data as given when no column or no direction is set;
      otherwise a reordering of it by `ascending` (numbers when both cells
      parse, lower-cased text otherwise), reversed for a descending sort by
      swapping the arguments. */
  function SortedData(data: seq<RowObject>, c: SortConfig, ascending: (RowObject, RowObject) -> int): (r: seq<RowObject>)
    ensures c.key == "" || c.direction == Unsorted ==> r == data
    ensures multiset(r) == multiset(data)
  {
    if c.key == "" || c.direction == Unsorted then data
    else if c.direction == Asc then SortBy(data, ascending)
    else SortBy(data, (a, b) => ascending(b, a))
  }

  /** With a consistent comparator, the sorted rows run in ascending order for
      `Asc` and descending order for `Desc`, and rows that tie keep the order
      they had in the data. */
  lemma SortedDataOrder(data: seq<RowObject>, c: SortConfig, ascending: (RowObject, RowObject) -> int, e: RowObject)
    requires c.key != "" && c.direction != Unsorted && TotalPreorder(ascending)
    ensures var r := SortedData(data, c, ascending);
            && (forall i, j :: 0 <= i < j < |r| ==>
                  if c.direction == Asc then ascending(r[i], r[j]) <= 0 else ascending(r[j], r[i]) <= 0)
            && SameRank(r, ascending, e) == SameRank(data, ascending, e)
  {
    if c.direction == Asc {
      SortBySorted(data, ascending);
      SortByStable(data, ascending, e);
    } else {
      var desc := (a, b) => ascending(b, a);
      SortBySorted(data, desc);
      SortByStable(data, desc, e);
      SameRankFlip(SortBy(data, desc), ascending, desc, e);
      SameRankFlip(data, ascending, desc, e);
    }
  }

  /** Ties are the same under a comparator and its swapped form. */
  lemma {:induction false} SameRankFlip(xs: seq<RowObject>, cmp: (RowObject, RowObject) -> int, flip: (RowObject, RowObject) -> int, e: RowObject)
    requires forall a, b :: flip(a, b) == cmp(b, a)
    ensures SameRank(xs, flip, e) == SameRank(xs, cmp, e)
  {
    if |xs| > 0 {
      SameRankFlip(xs[1..], cmp, flip, e);
    }
  }

  // ------------------------------------------------------------ filtering

  /** The global filter: some header's cell holds it, ignoring case. */
  predicate MatchesGlobal(row: RowObject, headers: seq<string>, q: string, show: real -> string)
    ensures q == "" ==> (MatchesGlobal(row, headers, q, show) <==> |headers| > 0)
    ensures q != "" && MatchesGlobal(row, headers, q, show) ==> exists i :: 0 <= i < |headers| && headers[i] in row
  {
    if q == "" && |headers| > 0 then
      assert OccursAt(Lower(CellString(row, headers[0], show)), Lower(q), 0);
      true
    else
    exists i :: 0 <= i < |headers| && Contains(Lower(CellString(row, headers[i], show)), Lower(q))
  }

  /** Every set column filter is held by its cell, ignoring case. */
  predicate MatchesColumns(row: RowObject, fs: seq<ColumnFilter>, show: real -> string)
    ensures MatchesColumns(row, fs, show) ==> forall i :: 0 <= i < |fs| && fs[i].value != "" ==> fs[i].column in row
  {
    forall i :: 0 <= i < |fs| && fs[i].value != "" ==>
      Contains(Lower(CellString(row, fs[i].column, show)), Lower(fs[i].value))
  }

  /** The rows a table state keeps. */
  predicate Keeps(s: TableState, headers: seq<string>, show: real -> string, row: RowObject) {
    && (s.globalFilter == "" || MatchesGlobal(row, headers, s.globalFilter, show))
    && MatchesColumns(row, s.filters, show)
  }

  /** The column filters, applied one after another in entry order; an
      empty filter is skipped. */
  function ApplyColumnFilters(rows: seq<RowObject>, fs: seq<ColumnFilter>, show: real -> string): (r: seq<RowObject>)
    ensures forall row :: row in r <==> row in rows && MatchesColumns(row, fs, show)
    ensures IsSubsequence(r, rows)
    decreases |fs|
  {
    if |fs| == 0 then
      SubsequenceRefl(rows);
      rows
    else
      var f := fs[0];
      var step := if f.value == "" then rows
                  else Filter(rows, (row: RowObject) => Contains(Lower(CellString(row, f.column, show)), Lower(f.value)));
      FilterIsSubsequence(rows, (row: RowObject) => Contains(Lower(CellString(row, f.column, show)), Lower(f.value)));
      SubsequenceRefl(rows);
      var r := ApplyColumnFilters(step, fs[1..], show);
      assert forall row :: MatchesColumns(row, fs, show) <==>
        (f.value == "" || Contains(Lower(CellString(row, f.column, show)), Lower(f.value)))
        && MatchesColumns(row, fs[1..], show) by {
        forall row
          ensures MatchesColumns(row, fs, show) <==>
            (f.value == "" || Contains(Lower(CellString(row, f.column, show)), Lower(f.value)))
            && MatchesColumns(row, fs[1..], show)
        {
          assert forall i :: 1 <= i < |fs| ==> fs[i] == fs[1..][i - 1];
        }
      }
      SubsequenceTransitive(r, step, rows);
      r
  }

  /** `filteredData`: the sorted rows that the state keeps, in sorted order. */
  function FilteredData(sorted: seq<RowObject>, headers: seq<string>, s: TableState, show: real -> string): (r: seq<RowObject>)
    ensures forall row :: row in r <==> row in sorted && Keeps(s, headers, show, row)
    ensures IsSubsequence(r, sorted)
  {
    var g := if s.globalFilter == "" then sorted
             else Filter(sorted, (row: RowObject) => MatchesGlobal(row, headers, s.globalFilter, show));
    FilterIsSubsequence(sorted, (row: RowObject) => MatchesGlobal(row, headers, s.globalFilter, show));
    SubsequenceRefl(sorted);
    var r := ApplyColumnFilters(g, s.filters, show);
    SubsequenceTransitive(r, g, sorted);
    r
  }

  /** The column filters keep each matching row as often as the input
      holds it, and drop the others. */
  lemma {:induction false} ColumnFiltersCount(rows: seq<RowObject>, fs: seq<ColumnFilter>, show: real -> string, row: RowObject)
    ensures multiset(ApplyColumnFilters(rows, fs, show))[row] == if MatchesColumns(row, fs, show) then multiset(rows)[row] else 0
    decreases |fs|
  {
    if |fs| > 0 {
      var f := fs[0];
      var step := if f.value == "" then rows
                  else Filter(rows, (x: RowObject) => Contains(Lower(CellString(x, f.column, show)), Lower(f.value)));
      FilterCount(rows, (x: RowObject) => Contains(Lower(CellString(x, f.column, show)), Lower(f.value)), row);
      ColumnFiltersCount(step, fs[1..], show, row);
      assert MatchesColumns(row, fs, show) <==>
        (f.value == "" || Contains(Lower(CellString(row, f.column, show)), Lower(f.value)))
        && MatchesColumns(row, fs[1..], show) by {
        assert forall i :: 1 <= i < |fs| ==> fs[i] == fs[1..][i - 1];
      }
    }
  }

  /** The filtered rows hold each row the state keeps as often as the sorted
      rows do, and no other row. */
  lemma FilteredCount(sorted: seq<RowObject>, headers: seq<string>, s: TableState, show: real -> string, row: RowObject)
    ensures multiset(FilteredData(sorted, headers, s, show))[row] == if Keeps(s, headers, show, row) then multiset(sorted)[row] else 0
  {
    var g := if s.globalFilter == "" then sorted
             else Filter(sorted, (x: RowObject) => MatchesGlobal(x, headers, s.globalFilter, show));
    FilterCount(sorted, (x: RowObject) => MatchesGlobal(x, headers, s.globalFilter, show), row);
    ColumnFiltersCount(g, s.filters, show, row);
  }

  /** The cleared state keeps every row. */
  lemma ClearedKeepsAll(s: TableState, headers: seq<string>, show: real -> string, row: RowObject)
    ensures Keeps(ClearFilters(s), headers, show, row)
  {
  }

  // -------------------------------------------------------- unique values

  /** Lexicographic order on code-unit sequences, a proper prefix first. */
  predicate UnitsBefore(a: seq<int>, b: seq<int>) {
    if |a| == 0 then |b| > 0
    else if |b| == 0 then false
    else if a[0] != b[0] then a[0] < b[0]
    else UnitsBefore(a[1..], b[1..])
  }

  /** JavaScript's default sort order on strings: their UTF-16 code units
      compared one by one, a proper prefix first. A character above U+FFFF
      therefore sorts by its high surrogate, ahead of U+E000 to U+FFFF. */
  predicate Before(a: string, b: string) {
    UnitsBefore(Utf16(a), Utf16(b))
  }

  /** U+1F600 (surrogates D83D DE00) sorts before U+FF01, although its code
      point is larger. */
  lemma SupplementaryBeforeFullwidth()
    ensures Before("\U{1F600}", "\U{FF01}") && !Before("\U{FF01}", "\U{1F600}")
  {
    var e, f := "\U{1F600}", "\U{FF01}";
    assert Utf16(e) == CodeUnits(e[0]) == [0xD83D, 0xDE00];
    assert Utf16(f) == CodeUnits(f[0]) == [0xFF01];
  }

  lemma {:induction false} UnitsIrreflexive(a: seq<int>)
    ensures !UnitsBefore(a, a)
  {
    if |a| > 0 {
      UnitsIrreflexive(a[1..]);
    }
  }

  lemma {:induction false} UnitsTotal(a: seq<int>, b: seq<int>)
    ensures a == b || UnitsBefore(a, b) || UnitsBefore(b, a)
  {
    if |a| > 0 && |b| > 0 && a[0] == b[0] {
      UnitsTotal(a[1..], b[1..]);
      if a[1..] == b[1..] {
        assert a == [a[0]] + a[1..] && b == [b[0]] + b[1..];
      }
    }
  }

  lemma {:induction false} UnitsTransitive(a: seq<int>, b: seq<int>, c: seq<int>)
    requires UnitsBefore(a, b) && UnitsBefore(b, c)
    ensures UnitsBefore(a, c)
  {
    if |a| > 0 && a[0] == b[0] && b[0] == c[0] {
      UnitsTransitive(a[1..], b[1..], c[1..]);
    }
  }

  lemma BeforeIrreflexive(a: string)
    ensures !Before(a, a)
  {
    UnitsIrreflexive(Utf16(a));
  }

  lemma BeforeTotal(a: string, b: string)
    ensures a == b || Before(a, b) || Before(b, a)
  {
    UnitsTotal(Utf16(a), Utf16(b));
    if Utf16(a) == Utf16(b) {
      Utf16Injective(a, b);
    }
  }

  lemma BeforeTransitive(a: string, b: string, c: string)
    requires Before(a, b) && Before(b, c)
    ensures Before(a, c)
  {
    UnitsTransitive(Utf16(a), Utf16(b), Utf16(c));
  }

  predicate StrictlySorted(xs: seq<string>) {
    forall i, j :: 0 <= i < j < |xs| ==> Before(xs[i], xs[j])
  }

  /** Adds `v` to a strictly sorted list unless it is already there. */
  function InsertUnique(v: string, xs: seq<string>): (r: seq<string>)
    requires StrictlySorted(xs)
    ensures StrictlySorted(r)
    ensures forall s :: s in r <==> s in xs || s == v
  {
    if |xs| == 0 then [v]
    else if v == xs[0] then xs
    else if Before(v, xs[0]) then
      forall j | 0 <= j < |xs|
        ensures Before(v, xs[j])
      {
        if j > 0 {
          BeforeTransitive(v, xs[0], xs[j]);
        }
      }
      [v] + xs
    else
      BeforeTotal(v, xs[0]);
      var rest := InsertUnique(v, xs[1..]);
      assert forall s :: s in xs <==> s == xs[0] || s in xs[1..] by {
        assert xs == [xs[0]] + xs[1..];
      }
      assert forall j :: 0 <= j < |rest| ==> Before(xs[0], rest[j]) by {
        forall j | 0 <= j < |rest|
          ensures Before(xs[0], rest[j])
        {
          if rest[j] != v {
            assert rest[j] in rest;
            var k :| 0 <= k < |xs[1..]| && xs[1..][k] == rest[j];
            assert xs[k + 1] == rest[j];
          }
        }
      }
      [xs[0]] + rest
  }

  /** The cell strings of a column, in row order. */
  function ColumnStrings(data: seq<RowObject>, column: string, show: real -> string): (vs: seq<string>)
    ensures |vs| == |data| && forall i :: 0 <= i < |data| ==> vs[i] == CellString(data[i], column, show)
  {
    seq(|data|, i requires 0 <= i < |data| => CellString(data[i], column, show))
  }

  /** `Array.from(new Set(values)).sort()` over the non-empty values. */
  function SortedUnique(vs: seq<string>): (r: seq<string>)
    ensures StrictlySorted(r)
    ensures forall s :: s in r <==> s in vs && s != ""
  {
    if |vs| == 0 then []
    else
      var rest := SortedUnique(vs[..|vs| - 1]);
      var v := vs[|vs| - 1];
      assert forall s :: s in vs <==> s in vs[..|vs| - 1] || s == v by {
        assert vs == vs[..|vs| - 1] + [v];
      }
      if v == "" then rest else InsertUnique(v, rest)
  }

  /** `getUniqueValues`: the column's non-empty cell strings, each once, in
      sorted order. */
  function GetUniqueValues(data: seq<RowObject>, column: string, show: real -> string): (r: seq<string>)
    ensures StrictlySorted(r) && Distinct(r) && "" !in r
    ensures forall s :: s in r <==> s != "" && exists i :: 0 <= i < |data| && CellString(data[i], column, show) == s
  {
    var vs := ColumnStrings(data, column, show);
    var r := SortedUnique(vs);
    forall i, j | 0 <= i < j < |r|
      ensures r[i] != r[j]
    {
      if r[i] == r[j] {
        BeforeIrreflexive(r[i]);
      }
    }
    r
  }
}
