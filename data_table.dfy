/**
 * The data table: a table widget over a list of rows, with a search box
 * and a column filter that hide rows, an export of the visible rows, an
 * optional checkbox column, an editable variant that writes edited cells
 * back to the rows, and a paginated variant that shows one page of rows at
 * a time under a numeric pagination bar.
 *
 * Row values are modelled by their text (`str(value)`). The Qt table is
 * modelled as a grid of optional cell texts: a cell without an item is
 * `None`. Resizing the table keeps the items of the cells that survive, so
 * a reload over rows shorter than the column list leaves older items in
 * place; the model keeps them too.
 */
module DataTable {
  import opened Common
  import opened PyDict
  import opened Pagination

  type Row = seq<string>
  type Cell = Option<string>
  type Grid = seq<seq<Cell>>

  const AllColumns := "All Columns"

  // ---------------------------------------------------------------------
  // Loading rows into the table

  /** The item at `(i, j)` of a table, or none outside it. */
  function Prior(g: Grid, i: int, j: int): Cell {
    if 0 <= i < |g| && 0 <= j < |g[i]| then g[i][j] else None
  }

  /**
   * Row `i` after `setRowCount`, `setColumnCount(width)` and, when `off`
   * is 1, `insertColumn(0)`: the surviving items, shifted right past the
   * new empty first column.
   */
  function ResizedRow(g: Grid, i: int, width: nat, off: nat): (r: seq<Cell>)
    ensures |r| == width + off
  {
    seq(width + off, j requires 0 <= j < width + off => if j < off then None else Prior(g, i, j - off))
  }

  /** Row values set from column `off` on; values past the last column are dropped. */
  function Filled(cells: seq<Cell>, values: Row, off: nat): (r: seq<Cell>)
    ensures |r| == |cells|
  {
    seq(|cells|, j requires 0 <= j < |cells| => if off <= j && j - off < |values| then Some(values[j - off]) else cells[j])
  }

  /** The table after loading `rows` under `width` columns, `off` of them in front for checkboxes. */
  function Loaded(g: Grid, rows: seq<Row>, width: nat, off: nat): (r: Grid)
    ensures |r| == |rows|
    ensures forall i :: 0 <= i < |r| ==> |r[i]| == width + off
  {
    seq(|rows|, i requires 0 <= i < |rows| => Filled(ResizedRow(g, i, width, off), rows[i], off))
  }

  /**
   * A load shows every value that has a column at its position, leaves the
   * checkbox column without items, and keeps the older item under a
   * column that a short row has no value for.
   */
  lemma LoadedCells(g: Grid, rows: seq<Row>, width: nat, off: nat, i: nat, j: nat)
    requires i < |rows| && j < width && off <= 1
    ensures var r := Loaded(g, rows, width, off);
            r[i][j + off] == (if j < |rows[i]| then Some(rows[i][j]) else Prior(g, i, j))
            && (off == 1 ==> r[i][0] == None)
  {
  }

  /** The items of one row after its values are set, one at a time. */
  method FillRow(cells: seq<Cell>, values: Row, off: nat) returns (r: seq<Cell>)
    ensures r == Filled(cells, values, off)
  {
    r := cells;
    var k := 0;
    while k < |values|
      invariant 0 <= k <= |values| && |r| == |cells|
      invariant forall j :: 0 <= j < |r| ==> r[j] == if off <= j && j - off < k then Some(values[j - off]) else cells[j]
    {
      if k + off < |r| {
        r := r[k + off := Some(values[k])];
      }
      k := k + 1;
    }
  }

  /** The whole table filled, row by row. */
  method Populate(base: Grid, rows: seq<Row>, off: nat) returns (g: Grid)
    requires |base| == |rows|
    ensures |g| == |rows|
    ensures forall i :: 0 <= i < |g| ==> g[i] == Filled(base[i], rows[i], off)
  {
    g := base;
    var i := 0;
    while i < |rows|
      invariant 0 <= i <= |rows| && |g| == |rows|
      invariant forall k :: 0 <= k < i ==> g[k] == Filled(base[k], rows[k], off)
      invariant forall k :: i <= k < |g| ==> g[k] == base[k]
    {
      var r := FillRow(g[i], rows[i], off);
      g := g[i := r];
      i := i + 1;
    }
  }

  /** Hidden rows that survive a resize stay hidden; added rows are shown. */
  function KeptHidden(h: seq<bool>, n: nat): (r: seq<bool>)
    ensures |r| == n
  {
    seq(n, i requires 0 <= i < n => i < |h| && h[i])
  }

  /** Checkboxes in surviving rows stay; added rows have none. */
  function KeptBoxes(b: seq<Option<bool>>, n: nat): (r: seq<Option<bool>>)
    ensures |r| == n
  {
    seq(n, i requires 0 <= i < n => if i < |b| then b[i] else None)
  }

  /** When its row is removed, the current cell moves up to the last remaining row. */
  function KeptCurrent(c: int, n: nat): int {
    if c >= n then n - 1 else c
  }

  // ---------------------------------------------------------------------
  // Filtering

  /** `search_text in item.text().lower()`, for a cell that may have no item. */
  predicate CellMatches(c: Cell, s: string) {
    c.Some? && Contains(Lower(c.value), s)
  }

  /** The cell the column filter looks at: the named column, shifted past the checkbox column. */
  function FilterColumn(columns: seq<string>, checkable: bool, choice: string): nat
    requires choice in columns
  {
    IndexOf(columns, choice) + (if checkable then 1 else 0)
  }

  /** Whether a row stays visible under a non-empty lowercased search. */
  predicate RowShown(row: seq<Cell>, columns: seq<string>, checkable: bool, s: string, choice: string)
    requires choice == AllColumns || choice in columns
  {
    if choice == AllColumns then exists j :: 0 <= j < |row| && CellMatches(row[j], s)
    else
      var c := FilterColumn(columns, checkable, choice);
      c < |row| && CellMatches(row[c], s)
  }

  /** The outcome of filtering: the hidden flag of every row, or the error a vanished column raises. */
  datatype Filtered = Hidden(flags: seq<bool>) | ColumnMissing

  /**
   * `_filter_data`: an empty search shows every row; "All Columns" shows a
   * row when any of its cells contains the lowercased search text; a
   * column choice shows a row when that column's cell contains it. A
   * chosen column that is no longer among the columns (they were replaced
   * after the filter box was filled) makes `list.index` raise on the first
   * row.
   */
  function FilterRows(g: Grid, columns: seq<string>, checkable: bool, text: string, choice: string): (r: Filtered)
    ensures r.ColumnMissing? <==> |g| > 0 && text != "" && choice != AllColumns && choice !in columns
    ensures r.Hidden? ==> |r.flags| == |g|
    ensures text == "" ==> r == Hidden(Repeat(false, |g|))
    ensures r.Hidden? && text != "" && choice == AllColumns ==>
              forall i :: 0 <= i < |g| ==>
                (!r.flags[i] <==> exists j :: 0 <= j < |g[i]| && g[i][j].Some? && Contains(Lower(g[i][j].value), Lower(text)))
    ensures r.Hidden? && text != "" && choice != AllColumns ==>
              forall i :: 0 <= i < |g| ==>
                (!r.flags[i] <==> var c := IndexOf(columns, choice) + (if checkable then 1 else 0);
                                  c < |g[i]| && g[i][c].Some? && Contains(Lower(g[i][c].value), Lower(text)))
  {
    var s := Lower(text);
    if s == [] then Hidden(Repeat(false, |g|))
    else if choice != AllColumns && choice !in columns then (if |g| == 0 then Hidden([]) else ColumnMissing)
    else Hidden(seq(|g|, i requires 0 <= i < |g| => !RowShown(g[i], columns, checkable, s, choice)))
  }

  /** The scan of one row's cells that stops at the first match. */
  method AnyMatch(row: seq<Cell>, s: string) returns (found: bool)
    ensures found <==> exists j :: 0 <= j < |row| && CellMatches(row[j], s)
  {
    found := false;
    var j := 0;
    while j < |row|
      invariant 0 <= j <= |row|
      invariant forall k :: 0 <= k < j ==> !CellMatches(row[k], s)
    {
      if CellMatches(row[j], s) {
        found := true;
        return;
      }
      j := j + 1;
    }
  }

  // ---------------------------------------------------------------------
  // Export

  /** A row's cell texts, with an empty field for a cell without an item. */
  function Texts(row: seq<Cell>): (r: seq<string>)
    ensures |r| == |row|
  {
    seq(|row|, j requires 0 <= j < |row| => if row[j].Some? then row[j].value else "")
  }

  /** The exported lines for the rows of `g` that are not hidden, in table order. */
  function VisibleLines(g: Grid, hidden: seq<bool>): (r: seq<seq<string>>)
    requires |hidden| == |g|
  {
    if g == [] then []
    else
      var n := |g| - 1;
      VisibleLines(g[..n], hidden[..n]) + (if hidden[n] then [] else [Texts(g[n])])
  }

  function CountShown(hidden: seq<bool>): nat {
    if hidden == [] then 0 else CountShown(hidden[..|hidden| - 1]) + (if hidden[|hidden| - 1] then 0 else 1)
  }

  /** One exported line per visible row. */
  lemma {:induction false} VisibleLinesCount(g: Grid, hidden: seq<bool>)
    requires |hidden| == |g|
    ensures |VisibleLines(g, hidden)| == CountShown(hidden)
  {
    if g != [] {
      var n := |g| - 1;
      VisibleLinesCount(g[..n], hidden[..n]);
    }
  }

  /** Every exported line is the text of a visible row. */
  lemma {:induction false} VisibleLinesFrom(g: Grid, hidden: seq<bool>)
    requires |hidden| == |g|
    ensures forall l :: l in VisibleLines(g, hidden) ==> exists i :: 0 <= i < |g| && !hidden[i] && l == Texts(g[i])
  {
    if g != [] {
      var n := |g| - 1;
      VisibleLinesFrom(g[..n], hidden[..n]);
      var p := VisibleLines(g[..n], hidden[..n]);
      forall l | l in VisibleLines(g, hidden)
        ensures exists i :: 0 <= i < |g| && !hidden[i] && l == Texts(g[i])
      {
        if l in p {
          var i :| 0 <= i < n && !hidden[..n][i] && l == Texts(g[..n][i]);
          assert g[..n][i] == g[i];
        } else {
          assert !hidden[n] && l == Texts(g[n]);
        }
      }
    }
  }

  /** With no row hidden, every row is exported, in order. */
  lemma {:induction false} VisibleLinesAll(g: Grid, hidden: seq<bool>)
    requires |hidden| == |g|
    requires forall i :: 0 <= i < |g| ==> !hidden[i]
    ensures VisibleLines(g, hidden) == seq(|g|, i requires 0 <= i < |g| => Texts(g[i]))
  {
    if g != [] {
      var n := |g| - 1;
      VisibleLinesAll(g[..n], hidden[..n]);
    }
  }

  method RowTexts(row: seq<Cell>) returns (line: seq<string>)
    ensures line == Texts(row)
  {
    line := [];
    var j := 0;
    while j < |row|
      invariant 0 <= j <= |row|
      invariant line == Texts(row[..j])
    {
      line := line + [if row[j].Some? then row[j].value else ""];
      j := j + 1;
    }
    assert row[..j] == row;
  }

  /** `_export_data`: the header line, then one line per visible row. */
  method ExportLines(headers: seq<string>, g: Grid, hidden: seq<bool>) returns (lines: seq<seq<string>>)
    requires |hidden| == |g|
    ensures lines == [headers] + VisibleLines(g, hidden)
  {
    var body := [];
    var r := 0;
    while r < |g|
      invariant 0 <= r <= |g|
      invariant body == VisibleLines(g[..r], hidden[..r])
    {
      assert g[..r + 1][..r] == g[..r] && hidden[..r + 1][..r] == hidden[..r];
      if !hidden[r] {
        var line := RowTexts(g[r]);
        body := body + [line];
      }
      r := r + 1;
    }
    assert g[..r] == g && hidden[..r] == hidden;
    lines := [headers] + body;
  }

  // ---------------------------------------------------------------------
  // Row dictionaries

  /**
   * The dictionary built by assigning `d[ks[j]] = cs[j]` for every present
   * cell, in column order: a repeated column keeps its first place and
   * the last present value.
   */
  function Gather(ks: seq<string>, cs: seq<Cell>): (d: seq<Named<string>>)
    requires |ks| == |cs|
    ensures IsDict(d)
  {
    if ks == [] then []
    else
      var n := |ks| - 1;
      var d := Gather(ks[..n], cs[..n]);
      if cs[n].Some? then PutIsDict(d, ks[n], cs[n].value); Put(d, ks[n], cs[n].value) else d
  }

  /** The last column's cell, when present, is what a lookup of its name finds; otherwise the earlier columns decide. */
  lemma GatherLast(ks: seq<string>, cs: seq<Cell>, k: string)
    requires |ks| == |cs| && ks != []
    ensures var n := |ks| - 1;
            Get(Gather(ks, cs), k) == if ks[n] == k && cs[n].Some? then cs[n] else Get(Gather(ks[..n], cs[..n]), k)
  {
  }

  /** With distinct columns, each column maps to its own present cell, and other names to nothing. */
  lemma {:induction false} GatherGet(ks: seq<string>, cs: seq<Cell>, k: string)
    requires |ks| == |cs| && Distinct(ks)
    ensures k !in ks ==> Get(Gather(ks, cs), k) == None
    ensures forall j :: 0 <= j < |ks| && ks[j] == k ==> Get(Gather(ks, cs), k) == cs[j]
  {
    if ks != [] {
      var n := |ks| - 1;
      assert Distinct(ks[..n]);
      GatherGet(ks[..n], cs[..n], k);
      GatherLast(ks, cs, k);
      forall j | 0 <= j < |ks| && ks[j] == k
        ensures Get(Gather(ks, cs), k) == cs[j]
      {
        if j < n {
          assert ks[..n][j] == k && cs[..n][j] == cs[j];
          assert ks[n] != k;
        } else {
          assert k !in ks[..n] by {
            forall i | 0 <= i < n ensures ks[..n][i] != k {
              assert ks[i] != ks[n];
            }
          }
        }
      }
    }
  }

  /** `dict(zip(columns, values))`: pairs up to the shorter of the two. */
  function ZipDict(columns: seq<string>, values: Row): (d: seq<Named<string>>)
    ensures IsDict(d)
  {
    var n := if |columns| <= |values| then |columns| else |values|;
    Gather(columns[..n], seq(n, j requires 0 <= j < n => Some(values[j])))
  }

  /** With distinct columns, each column that has a value maps to it, and any other name to nothing. */
  lemma ZipDictGet(columns: seq<string>, values: Row, k: string)
    requires Distinct(columns)
    ensures forall j :: 0 <= j < |columns| && columns[j] == k ==>
              Get(ZipDict(columns, values), k) == if j < |values| then Some(values[j]) else None
    ensures k !in columns ==> Get(ZipDict(columns, values), k) == None
  {
    var n := if |columns| <= |values| then |columns| else |values|;
    var cs := seq(n, j requires 0 <= j < n => Some(values[j]));
    assert Distinct(columns[..n]);
    GatherGet(columns[..n], cs, k);
    forall j | 0 <= j < |columns| && columns[j] == k
      ensures Get(ZipDict(columns, values), k) == if j < |values| then Some(values[j]) else None
    {
      if j < n {
        assert columns[..n][j] == k;
      } else {
        assert k !in columns[..n] by {
          forall i | 0 <= i < n ensures columns[..n][i] != k {
            assert columns[i] != columns[j];
          }
        }
      }
    }
  }

  lemma ZipDictColumns(columns: seq<string>, values: Row)
    ensures Distinct(columns) ==>
              forall j :: 0 <= j < |columns| ==> Get(ZipDict(columns, values), columns[j]) == if j < |values| then Some(values[j]) else None
  {
    if Distinct(columns) {
      forall j | 0 <= j < |columns|
        ensures Get(ZipDict(columns, values), columns[j]) == if j < |values| then Some(values[j]) else None
      {
        ZipDictGet(columns, values, columns[j]);
      }
    }
  }

  /** The cells a double click reads: column `c` of the row sits at `c + off`, when the table has it. */
  function ClickedCells(row: seq<Cell>, width: nat, off: nat): (r: seq<Cell>)
    ensures |r| == width
  {
    seq(width, c requires 0 <= c < width => if c + off < |row| then row[c + off] else None)
  }

  // ---------------------------------------------------------------------
  // Pages

  /** Python's `a // d`, which rounds toward minus infinity (Dafny's `/` is Euclidean). */
  function FloorDiv(a: int, d: int): (q: int)
    requires d != 0
    ensures d > 0 ==> q * d <= a < q * d + d
    ensures d < 0 ==> q * d + d < a <= q * d
  {
    if d > 0 || a % d == 0 then a / d else a / d - 1
  }

  /**
   * `max(1, (n + size - 1) // size)`; a zero size raises `ZeroDivisionError`
   * before this is reached. A negative size always gives one page.
   */
  function TotalPages(n: nat, size: int): (t: int)
    requires size != 0
    ensures t >= 1
    ensures size > 0 && n > 0 ==> (t - 1) * size < n <= t * size
    ensures size > 0 && n == 0 ==> t == 1
    ensures size < 0 && n > 0 ==> t == 1
  {
    var q := FloorDiv(n + size - 1, size);
    assert size > 0 && n > 0 ==> (q - 1) * size < n <= q * size by {
      if size > 0 && n > 0 {
        assert q * size <= n + size - 1 < q * size + size;
      }
    }
    if q >= 1 then q else 1
  }

  /** Python's clipping of a slice bound: a negative bound counts from the end, and the result lies in [0, n]. */
  function Clip(x: int, n: nat): (r: nat)
    ensures r <= n
    ensures 0 <= x <= n ==> r == x
  {
    if x < 0 then (if x + n < 0 then 0 else x + n) else if x >= n then n else x
  }

  /** `data[(page - 1) * size : page * size]`. */
  function PageRows<T>(data: seq<T>, page: int, size: int): (r: seq<T>)
  {
    var lo, hi := Clip((page - 1) * size, |data|), Clip(page * size, |data|);
    if lo <= hi then data[lo..hi] else []
  }

  /** A negative size shows the first page as all rows but the last `-size`. */
  lemma NegativePageSize<T>(data: seq<T>, size: int)
    requires size < 0
    ensures PageRows(data, 1, size) == if |data| + size > 0 then data[..|data| + size] else []
  {
  }

  lemma MulLe(a: int, b: int, s: int)
    requires a <= b && s >= 0
    ensures a * s <= b * s
  {
  }

  /** Every page before the last is full, the last holds the rest, and pages past the last are empty. */
  lemma PageSizes<T>(data: seq<T>, page: int, size: int)
    requires size >= 1 && page >= 1
    ensures page < TotalPages(|data|, size) ==> |PageRows(data, page, size)| == size
    ensures page == TotalPages(|data|, size) && |data| > 0 ==> 1 <= |PageRows(data, page, size)| <= size
    ensures page > TotalPages(|data|, size) ==> PageRows(data, page, size) == []
  {
    var t := TotalPages(|data|, size);
    assert (page - 1) * size == page * size - size;
    MulLe(1, page, size);
    if page < t {
      MulLe(page, t - 1, size);
    } else if page > t {
      MulLe(t, page - 1, size);
    }
  }

  /** The pages one after the other give back all the rows. */
  function Pages<T>(data: seq<T>, size: int, count: nat): seq<T>
    requires size >= 1
  {
    if count == 0 then [] else Pages(data, size, count - 1) + PageRows(data, count, size)
  }

  lemma {:induction false} PagesPrefix<T>(data: seq<T>, size: int, count: nat)
    requires size >= 1
    ensures Pages(data, size, count) == data[..Clip(count * size, |data|)]
  {
    if count > 0 {
      PagesPrefix(data, size, count - 1);
      var a, b := Clip((count - 1) * size, |data|), Clip(count * size, |data|);
      assert data[..a] + data[a..b] == data[..b];
    }
  }

  lemma PagesCover<T>(data: seq<T>, size: int)
    requires size >= 1
    ensures Pages(data, size, TotalPages(|data|, size)) == data
  {
    PagesPrefix(data, size, TotalPages(|data|, size));
  }

  // ---------------------------------------------------------------------
  // The widget

  /** `DataTableWidget` and its two subclasses. */
  datatype Variant = Plain | Editable | Paginated

  class DataTableWidget {
    const variant: Variant
    var columns: seq<string>
    var data: seq<Row>
    var sortable: bool
    var filterable: bool
    var checkable: bool

    /** The Qt table: its cells, header labels, hidden rows, checkboxes and current row. */
    var grid: Grid
    var headers: seq<string>
    var hidden: seq<bool>
    var boxes: seq<Option<bool>>
    var currentRow: int

    /** The search box and the column filter, filled once with the first columns. */
    var search: string
    const choices: seq<string>
    var filterIndex: nat

    /** The paginated variant's state; `pagination` exists once it has been set up. */
    var pageSize: int
    var currentPage: int
    var totalPages: int
    var pagination: PaginationWidget?

    ghost predicate Sound()
      reads this, pagination
    {
      Shape() && (search == "" ==> forall i :: 0 <= i < |hidden| ==> !hidden[i])
    }

    /** The table's parts agree in size, and the toolbar and the pagination state are set up. */
    ghost predicate Shape()
      reads this, pagination
    {
      |hidden| == |grid| && |boxes| == |grid| && -1 <= currentRow < |grid|
      && (forall i :: 0 <= i < |grid| ==> |grid[i]| == |headers|)
      && |choices| >= 1 && choices[0] == AllColumns && filterIndex < |choices|
      && currentPage >= 1
      && (variant != Paginated ==> pagination == null)
      && (pagination != null ==> pagination.Valid() && pagination.mode == "numeric")
    }

    ghost predicate Valid()
      reads this, pagination
    {
      Sound() && (variant == Paginated ==> pagination != null)
    }

    /** Whether a load raises `ZeroDivisionError`: a paginated table with a zero page size and rows to show. */
    predicate LoadRaises()
      reads this
    {
      variant == Paginated && pageSize == 0 && columns != [] && data != []
    }

    /** The rows a load puts in the table: all of them, or the current page. */
    function ShownRows(): seq<Row>
      reads this
    {
      if variant == Paginated then PageRows(data, currentPage, pageSize) else data
    }

    /** 1 when a load adds the checkbox column, which only the unpaginated tables do. */
    function Offset(): nat
      reads this
    {
      if variant != Paginated && checkable then 1 else 0
    }

    /** The table shows the current rows, loaded over the earlier table `g0`. */
    ghost predicate Reloaded(g0: Grid, h0: seq<bool>, b0: seq<Option<bool>>, c0: int)
      reads this
    {
      var rows := ShownRows();
      grid == Loaded(g0, rows, |columns|, Offset())
      && headers == (if Offset() == 1 then [""] else []) + columns
      && hidden == KeptHidden(h0, |rows|)
      && boxes == (if Offset() == 1 then Repeat(Some(false), |rows|) else KeptBoxes(b0, |rows|))
      && currentRow == KeptCurrent(c0, |rows|)
    }

    /** A plain (or, with `editable`, an editable) table over `columns0` and `data0`. */
    constructor (columns0: seq<string>, data0: seq<Row>, editable: bool)
      ensures Valid() && fresh(this)
      ensures variant == (if editable then Editable else Plain)
      ensures columns == columns0 && data == data0 && !checkable && sortable && filterable
      ensures choices == [AllColumns] + columns0 && filterIndex == 0 && search == ""
      ensures columns0 != [] && data0 != [] ==> Reloaded([], [], [], -1)
      ensures columns0 == [] || data0 == [] ==> grid == [] && headers == []
    {
      variant := if editable then Editable else Plain;
      choices := [AllColumns] + columns0;
      new;
      Setup(columns0, data0, 50);
      var _ := LoadData();
    }

    /**
     * A paginated table whose pagination bar exists before the first load;
     * a zero page size with rows would still raise `ZeroDivisionError` in
     * that load, as `NewPaginatedAsWritten` records.
     */
    constructor Paged(columns0: seq<string>, data0: seq<Row>, pageSize0: int)
      requires pageSize0 != 0 || columns0 == [] || data0 == []
      ensures Valid() && fresh(this) && fresh(pagination)
      ensures variant == Paginated && columns == columns0 && data == data0
      ensures pageSize == pageSize0 && currentPage == 1
      ensures columns0 != [] && data0 != [] ==>
                Reloaded([], [], [], -1) && totalPages == TotalPages(|data0|, pageSize0)
                && pagination.totalPages == totalPages && pagination.currentPage == 1
    {
      variant := Paginated;
      choices := [AllColumns] + columns0;
      new;
      Setup(columns0, data0, pageSize0);
      SetupPagination();
      var _ := LoadData();
    }

    /** A paginated table as the base constructor leaves it, before its pagination bar is made. */
    constructor Unwired(columns0: seq<string>, data0: seq<Row>, pageSize0: int)
      ensures Sound() && fresh(this)
      ensures variant == Paginated && pagination == null && columns == columns0 && data == data0
      ensures grid == [] && currentPage == 1 && totalPages == 1
    {
      variant := Paginated;
      choices := [AllColumns] + columns0;
      new;
      Setup(columns0, data0, pageSize0);
    }

    /** `__init__` and `_setup_ui` up to the first load: an empty 0 by 0 table. */
    method Setup(columns0: seq<string>, data0: seq<Row>, pageSize0: int)
      requires |choices| >= 1 && choices[0] == AllColumns
      modifies this`columns, this`data, this`sortable, this`filterable, this`checkable, this`search, this`filterIndex
      modifies this`pageSize, this`currentPage, this`totalPages, this`pagination
      modifies this`grid, this`headers, this`hidden, this`boxes, this`currentRow
      ensures Sound() && pagination == null
      ensures columns == columns0 && data == data0 && !checkable && sortable && filterable
      ensures grid == [] && headers == [] && currentRow == -1
      ensures search == "" && filterIndex == 0
      ensures pageSize == pageSize0 && currentPage == 1 && totalPages == 1
    {
      SetFields(columns0, data0, pageSize0);
      ClearTable();
    }

    method SetFields(columns0: seq<string>, data0: seq<Row>, pageSize0: int)
      modifies this`columns, this`data, this`sortable, this`filterable, this`checkable, this`search, this`filterIndex
      modifies this`pageSize, this`currentPage, this`totalPages, this`pagination
      ensures pagination == null
      ensures columns == columns0 && data == data0 && !checkable && sortable && filterable
      ensures search == "" && filterIndex == 0
      ensures pageSize == pageSize0 && currentPage == 1 && totalPages == 1
    {
      columns, data := columns0, data0;
      sortable, filterable, checkable := true, true, false;
      search, filterIndex := "", 0;
      pageSize, currentPage, totalPages := pageSize0, 1, 1;
      pagination := null;
    }

    /** A new `QTableWidget`: no rows, no columns, no current cell. */
    method ClearTable()
      requires currentPage >= 1 && |choices| >= 1 && choices[0] == AllColumns && filterIndex < |choices|
      requires pagination == null
      modifies this`grid, this`headers, this`hidden, this`boxes, this`currentRow
      ensures Sound()
      ensures grid == [] && headers == [] && hidden == [] && boxes == [] && currentRow == -1
    {
      grid, headers, hidden, boxes, currentRow := [], [], [], [], -1;
    }

    /** `_setup_pagination`: a numeric bar over the current page count. */
    method SetupPagination()
      requires Sound() && variant == Paginated && pagination == null
      modifies this`pagination
      ensures Valid() && fresh(pagination)
      ensures pagination.totalPages == totalPages && pagination.currentPage == currentPage
    {
      pagination := new PaginationWidget("numeric", totalPages, currentPage, 7);
    }

    /**
     * `_load_data`: nothing without columns or rows; otherwise the table is
     * resized and filled. The paginated variant first recomputes the page
     * count and hands it to its bar; it fails on a zero page size
     * (`ZeroDivisionError`) and when that bar does not exist yet
     * (`AttributeError`).
     */
    method LoadData() returns (ok: bool)
      requires Sound()
      modifies this`grid, this`headers, this`hidden, this`boxes, this`currentRow, this`totalPages, pagination
      ensures Sound()
      ensures old(Valid()) ==> Valid()
      ensures ok <==> !(variant == Paginated && (pagination == null || pageSize == 0) && columns != [] && data != [])
      ensures ok && columns != [] && data != [] ==> Reloaded(old(grid), old(hidden), old(boxes), old(currentRow))
      ensures !ok || columns == [] || data == [] ==>
                grid == old(grid) && headers == old(headers) && hidden == old(hidden)
                && boxes == old(boxes) && currentRow == old(currentRow) && totalPages == old(totalPages)
      ensures ok && pagination != null && columns != [] && data != [] ==>
                totalPages == TotalPages(|data|, pageSize) && pagination.totalPages == totalPages
                && pagination.currentPage == Min(old(pagination.currentPage), totalPages)
      ensures !ok || pagination == null || columns == [] || data == [] ==> totalPages == old(totalPages)
    {
      ok := true;
      if columns == [] || data == [] {
        return;
      }
      if variant == Paginated {
        if pageSize == 0 || pagination == null {
          ok := false;
          return;
        }
        totalPages := TotalPages(|data|, pageSize);
        pagination.SetTotalPages(totalPages);
        LoadTable(PageRows(data, currentPage, pageSize), 0, columns);
      } else if checkable {
        LoadTable(data, 1, [""] + columns);
      } else {
        LoadTable(data, 0, columns);
      }
    }

    /** `setRowCount`, `setColumnCount`, the header labels, the checkbox column and the items. */
    method LoadTable(rows: seq<Row>, off: nat, heads: seq<string>)
      requires Sound() && |heads| == |columns| + off && off <= 1
      modifies this`grid, this`headers, this`hidden, this`boxes, this`currentRow
      ensures Sound()
      ensures grid == Loaded(old(grid), rows, |columns|, off) && headers == heads
      ensures hidden == KeptHidden(old(hidden), |rows|)
      ensures boxes == (if off == 1 then Repeat(Some(false), |rows|) else KeptBoxes(old(boxes), |rows|))
      ensures currentRow == KeptCurrent(old(currentRow), |rows|)
    {
      var g0, width := grid, |columns|;
      var base := seq(|rows|, i requires 0 <= i < |rows| => ResizedRow(g0, i, width, off));
      var g := Populate(base, rows, off);
      assert g == Loaded(g0, rows, width, off);
      grid, headers := g, heads;
      hidden := KeptHidden(hidden, |rows|);
      boxes := if off == 1 then Repeat(Some(false), |rows|) else KeptBoxes(boxes, |rows|);
      currentRow := KeptCurrent(currentRow, |rows|);
    }

    /** `_filter_data`: every row's hidden flag, from the search text and the column filter. */
    method ApplyFilter() returns (failed: bool)
      requires Shape()
      modifies this`hidden
      ensures Sound()
      ensures var f := FilterRows(grid, columns, checkable, search, choices[filterIndex]);
              (failed <==> f.ColumnMissing?) && hidden == (if failed then old(hidden) else f.flags)
    {
      var s := Lower(search);
      var choice := choices[filterIndex];
      var flags := hidden;
      var r := 0;
      failed := false;
      while r < |grid|
        invariant 0 <= r <= |grid| && |flags| == |grid|
        invariant hidden == old(hidden)
        invariant r > 0 ==> s == [] || choice == AllColumns || choice in columns
        invariant forall k :: 0 <= k < r ==> flags[k] == (s != [] && !RowShown(grid[k], columns, checkable, s, choice))
      {
        var show := false;
        if s == [] {
          show := true;
        } else if choice == AllColumns {
          show := AnyMatch(grid[r], s);
        } else {
          if choice !in columns {
            failed := true;
            return;
          }
          var c := IndexOf(columns, choice) + (if checkable then 1 else 0);
          show := c < |grid[r]| && CellMatches(grid[r][c], s);
        }
        flags := flags[r := !show];
        r := r + 1;
      }
      hidden := flags;
    }

    /** The search box's text changes (typing, or `clear`), and the rows are filtered again. */
    method SetSearch(text: string) returns (failed: bool)
      requires Sound()
      modifies this`search, this`hidden
      ensures Sound() && search == text
      ensures text == old(search) ==> hidden == old(hidden) && !failed
      ensures text != old(search) ==>
                var f := FilterRows(grid, columns, checkable, text, choices[filterIndex]);
                (failed <==> f.ColumnMissing?) && hidden == (if failed then old(hidden) else f.flags)
    {
      failed := false;
      if text != search {
        search := text;
        failed := ApplyFilter();
      }
    }

    /** Another entry of the column filter; the rows are filtered again when its text changes. */
    method ChooseFilter(i: nat) returns (failed: bool)
      requires Sound() && i < |choices|
      modifies this`filterIndex, this`hidden
      ensures Sound() && filterIndex == i
      ensures choices[i] == choices[old(filterIndex)] ==> hidden == old(hidden) && !failed
      ensures choices[i] != choices[old(filterIndex)] ==>
                var f := FilterRows(grid, columns, checkable, search, choices[i]);
                (failed <==> f.ColumnMissing?) && hidden == (if failed then old(hidden) else f.flags)
    {
      failed := false;
      var changed := choices[i] != choices[filterIndex];
      filterIndex := i;
      if changed {
        failed := ApplyFilter();
      }
    }

    /** `_clear_filters`: an empty search and "All Columns", with every row shown. */
    method ClearFilters()
      requires Sound()
      modifies this`search, this`filterIndex, this`hidden
      ensures Sound() && search == "" && filterIndex == 0
      ensures forall i :: 0 <= i < |hidden| ==> !hidden[i]
    {
      var _ := SetSearch("");
      var _ := ChooseFilter(0);
    }

    /** `_export_data`: no file chosen writes nothing; otherwise the headers and the visible rows. */
    method ExportData(filename: string) returns (written: Option<seq<seq<string>>>)
      requires Sound()
      ensures filename == "" ==> written == None
      ensures filename != "" ==> written == Some([headers] + VisibleLines(grid, hidden))
    {
      written := None;
      if filename != "" {
        var lines := ExportLines(headers, grid, hidden);
        written := Some(lines);
      }
    }

    /** A click on row `r` makes it current and emits `row_selected`. */
    method SelectRow(r: int) returns (rowSelected: Option<int>)
      requires Sound() && 0 <= r < |grid|
      modifies this`currentRow
      ensures Sound() && currentRow == r && rowSelected == Some(r)
    {
      currentRow := r;
      rowSelected := if currentRow >= 0 then Some(currentRow) else None;
    }

    /** The user ticks or clears the checkbox of row `r`. */
    method CheckRow(r: int, b: bool)
      requires Sound() && 0 <= r < |boxes| && boxes[r].Some?
      modifies this`boxes
      ensures Sound() && boxes == old(boxes)[r := Some(b)]
    {
      boxes := boxes[r := Some(b)];
    }

    /**
     * `_on_double_click`: the row and a dictionary from each column name to
     * the text of its cell, for the cells that have items.
     */
    method OnDoubleClick(r: int) returns (row: int, rowData: seq<Named<string>>)
      requires Sound() && 0 <= r < |grid|
      ensures row == r && rowData == Gather(columns, ClickedCells(grid[r], |columns|, Offset()))
    {
      var off := Offset();
      var cells := ClickedCells(grid[r], |columns|, off);
      rowData := [];
      var c := 0;
      while c < |columns|
        invariant 0 <= c <= |columns|
        invariant rowData == Gather(columns[..c], cells[..c])
      {
        assert columns[..c + 1][..c] == columns[..c] && cells[..c + 1][..c] == cells[..c];
        var item := if c + off < |grid[r]| then grid[r][c + off] else None;
        assert cells[c] == item;
        if item.Some? {
          rowData := Put(rowData, columns[c], item.value);
        }
        c := c + 1;
      }
      assert columns[..c] == columns && cells[..c] == cells;
      row := r;
    }

    /** `set_data`: new columns and rows, then a load. */
    method SetData(columns0: seq<string>, data0: seq<Row>)
      requires Valid()
      modifies this`columns, this`data, this`grid, this`headers, this`hidden, this`boxes, this`currentRow, this`totalPages, pagination
      ensures Valid() && columns == columns0 && data == data0
      ensures !LoadRaises() && columns0 != [] && data0 != [] ==> Reloaded(old(grid), old(hidden), old(boxes), old(currentRow))
      ensures LoadRaises() || columns0 == [] || data0 == [] ==> grid == old(grid) && headers == old(headers)
    {
      columns, data := columns0, data0;
      var _ := LoadData();
    }

    /** `add_row`: the row is appended, the table reloaded, and `data_changed` emitted unless the load raised. */
    method AddRow(row: Row) returns (dataChanged: bool)
      requires Valid()
      modifies this`data, this`grid, this`headers, this`hidden, this`boxes, this`currentRow, this`totalPages, pagination
      ensures Valid() && data == old(data) + [row]
      ensures dataChanged <==> !LoadRaises()
      ensures dataChanged && columns != [] ==> Reloaded(old(grid), old(hidden), old(boxes), old(currentRow))
      ensures !dataChanged ==> grid == old(grid)
    {
      data := data + [row];
      dataChanged := LoadData();
    }

    /** `remove_row`: an index inside the rows removes that row, reloads and emits; any other changes nothing. */
    method RemoveRow(index: int) returns (dataChanged: bool)
      requires Valid()
      modifies this`data, this`grid, this`headers, this`hidden, this`boxes, this`currentRow, this`totalPages, pagination
      ensures Valid()
      ensures dataChanged <==> 0 <= index < |old(data)| && !LoadRaises()
      ensures 0 <= index < |old(data)| ==> data == DeleteAt(old(data), index)
      ensures !(0 <= index < |old(data)|) ==> data == old(data)
      ensures !dataChanged ==> grid == old(grid) && hidden == old(hidden)
      ensures dataChanged && columns != [] && data != [] ==> Reloaded(old(grid), old(hidden), old(boxes), old(currentRow))
    {
      dataChanged := false;
      if 0 <= index < |data| {
        data := DeleteAt(data, index);
        dataChanged := LoadData();
      }
    }

    /** `get_selected_rows`: the ticked rows in a checkable table, else the current row if any. */
    method GetSelectedRows() returns (rows: seq<int>)
      requires Sound()
      ensures checkable ==> forall i :: i in rows <==> 0 <= i < |boxes| && boxes[i] == Some(true)
      ensures checkable ==> forall a, b :: 0 <= a < b < |rows| ==> rows[a] < rows[b]
      ensures !checkable ==> rows == if currentRow >= 0 then [currentRow] else []
    {
      rows := [];
      if checkable {
        var r := 0;
        while r < |grid|
          invariant 0 <= r <= |grid|
          invariant forall i :: i in rows <==> 0 <= i < r && boxes[i] == Some(true)
          invariant forall a, b :: 0 <= a < b < |rows| ==> rows[a] < rows[b]
          invariant forall a :: 0 <= a < |rows| ==> rows[a] < r
        {
          if boxes[r] == Some(true) {
            rows := rows + [r];
          }
          r := r + 1;
        }
      } else if currentRow >= 0 {
        rows := [currentRow];
      }
    }

    /** `get_row_data`: the row's values under its column names, or an empty dictionary out of range. */
    function GetRowData(index: int): (d: seq<Named<string>>)
      reads this
      ensures IsDict(d)
      ensures !(0 <= index < |data|) ==> d == []
      ensures 0 <= index < |data| && Distinct(columns) ==>
                forall j :: 0 <= j < |columns| ==> Get(d, columns[j]) == if j < |data[index]| then Some(data[index][j]) else None
    {
      if 0 <= index < |data| then
        ZipDictColumns(columns, data[index]);
        ZipDict(columns, data[index])
      else []
    }

    /** `set_checkable`: the flag, then a load (which the paginated variant does without a checkbox column). */
    method SetCheckable(b: bool)
      requires Valid()
      modifies this`checkable, this`grid, this`headers, this`hidden, this`boxes, this`currentRow, this`totalPages, pagination
      ensures Valid() && checkable == b
      ensures !LoadRaises() && columns != [] && data != [] ==> Reloaded(old(grid), old(hidden), old(boxes), old(currentRow))
      ensures LoadRaises() ==> grid == old(grid)
    {
      checkable := b;
      var _ := LoadData();
    }

    method SetSortable(b: bool)
      modifies this`sortable
      ensures sortable == b
    {
      sortable := b;
    }

    /** `set_filterable` records the flag; the toolbar stays as it was built. */
    method SetFilterable(b: bool)
      modifies this`filterable
      ensures filterable == b
    {
      filterable := b;
    }

    /**
     * `_on_item_changed` of the editable table, after the user typed `text`
     * into cell `(row, col)`: a cell under a data column of an existing row
     * writes the text back, and `cell_changed` and `data_changed` are
     * emitted. A row shorter than the column list makes the write raise
     * `IndexError` before the signals (`emitted` is then `None`).
     */
    method OnItemChanged(row: int, col: int, text: string) returns (emitted: Option<(int, int, string)>)
      requires Valid() && variant == Editable && 0 <= row < |grid| && 0 <= col < |headers|
      modifies this`grid, this`data
      ensures Valid() && grid == old(grid)[row := old(grid)[row][col := Some(text)]]
      ensures var c := col - Offset();
              if 0 <= c < |columns| && row < |old(data)| then
                if c < |old(data)[row]| then
                  data == old(data)[row := old(data)[row][c := text]] && emitted == Some((row, col, text))
                else data == old(data) && emitted == None
              else data == old(data) && emitted == Some((row, col, text))
    {
      grid := grid[row := grid[row][col := Some(text)]];
      var c := col - (if checkable then 1 else 0);
      if 0 <= c < |columns| && row < |data| {
        if c >= |data[row]| {
          emitted := None;
          return;
        }
        data := data[row := data[row][c := text]];
      }
      emitted := Some((row, col, text));
    }

    /**
     * The bar emits `page_changed` for a new page; the table then shows that
     * page and re-emits it. With a zero page size and rows the load raises
     * `ZeroDivisionError` first, and nothing is re-emitted.
     */
    method ChangePage(page: int) returns (pageChanged: Option<int>, zeroDivision: bool)
      requires Valid() && variant == Paginated
      modifies this`currentPage, this`grid, this`headers, this`hidden, this`boxes, this`currentRow, this`totalPages, pagination
      ensures Valid()
      ensures var accepted := 1 <= page <= old(pagination.totalPages) && page != old(pagination.currentPage);
              && (zeroDivision <==> accepted && pageSize == 0 && columns != [] && data != [])
              && (pageChanged.Some? <==> accepted && !zeroDivision)
              && (accepted ==> currentPage == page)
      ensures pageChanged.Some? ==> pageChanged == Some(page)
      ensures pageChanged.Some? && columns != [] && data != [] ==>
                Reloaded(old(grid), old(hidden), old(boxes), old(currentRow)) && ShownRows() == PageRows(data, page, pageSize)
      ensures pageChanged.None? ==> grid == old(grid)
      ensures pageChanged.None? && !zeroDivision ==> currentPage == old(currentPage)
    {
      pageChanged, zeroDivision := None, false;
      var p := pagination.SetCurrentPage(page);
      if p.Some? {
        currentPage := page;
        var ok := LoadData();
        if !ok {
          zeroDivision := true;
          return;
        }
        pageChanged := Some(page);
      }
    }

    /**
     * `set_page_size`: the size, back to page 1, and a load; a zero size
     * with rows makes the load raise `ZeroDivisionError`, leaving the table
     * as it was.
     */
    method SetPageSize(size: int) returns (zeroDivision: bool)
      requires Valid() && variant == Paginated
      modifies this`pageSize, this`currentPage, this`grid, this`headers, this`hidden, this`boxes, this`currentRow, this`totalPages, pagination
      ensures Valid() && pageSize == size && currentPage == 1
      ensures zeroDivision <==> size == 0 && columns != [] && data != []
      ensures zeroDivision ==> grid == old(grid) && totalPages == old(totalPages)
      ensures size != 0 && columns != [] && data != [] ==>
                Reloaded(old(grid), old(hidden), old(boxes), old(currentRow))
                && ShownRows() == PageRows(data, 1, size) && totalPages == TotalPages(|data|, size)
    {
      pageSize := size;
      currentPage := 1;
      var ok := LoadData();
      zeroDivision := !ok;
    }
  }

  // ---------------------------------------------------------------------
  // Sorted views

  /**
   * Once sorting is on, the table may list the rows in another order than
   * the data; `order[v]` is the data row shown at table row `v`. The write
   * of an edit as intended goes to the data row that the edited table row
   * shows, and leaves every other row alone.
   */
  function WriteBackIntended(data: seq<Row>, order: seq<nat>, v: nat, c: nat, text: string): (r: seq<Row>)
    requires v < |order| && order[v] < |data|
    ensures |r| == |data|
    ensures forall i :: 0 <= i < |data| && i != order[v] ==> r[i] == data[i]
    ensures c < |data[order[v]]| ==> r[order[v]] == data[order[v]][c := text]
    ensures c >= |data[order[v]]| ==> r == data
  {
    var d := order[v];
    if c < |data[d]| then data[d := data[d][c := text]] else data
  }

  /**
   * Editing the first table row of an editable table over rows "a" and "b"
   * that the header sort shows as "b" above "a" (`order == [1, 0]`): as
   * written the text lands in the "a" row; as intended in the "b" row.
   */
  method SortedEditWritesOtherRow() returns (written: seq<Row>, intended: seq<Row>)
    ensures written == [["c"], ["b"]]
    ensures intended == [["a"], ["c"]]
  {
    var t := new DataTableWidget(["n"], [["a"], ["b"]], true);
    assert |t.grid| == 2 && |t.headers| == 1 && t.Offset() == 0;
    var _ := t.OnItemChanged(0, 0, "c");
    written := t.data;
    assert written == [["a"], ["b"]][0 := ["a"][0 := "c"]];
    assert ["a"][0 := "c"] == ["c"] && ["b"][0 := "c"] == ["c"];
    intended := WriteBackIntended([["a"], ["b"]], [1, 0], 0, 0, "c");
    assert intended == [["a"], ["b"]][1 := ["b"][0 := "c"]];
  }

  /**
   * `PaginatedDataTable(columns, data, page_size)` as written: the base
   * constructor loads the rows before `_setup_pagination` has made the
   * bar, so with columns and rows the load fails (`ZeroDivisionError` for
   * a zero page size, `AttributeError` otherwise) and no table is made;
   * without them the first load does nothing and the bar is set up after
   * it.
   */
  method NewPaginatedAsWritten(columns0: seq<string>, data0: seq<Row>, pageSize0: int) returns (t: DataTableWidget?)
    ensures t == null <==> columns0 != [] && data0 != []
    ensures t != null ==> fresh(t) && t.Valid() && t.variant == Paginated && t.grid == []
  {
    t := new DataTableWidget.Unwired(columns0, data0, pageSize0);
    var ok := t.LoadData();
    if !ok {
      t := null;
      return;
    }
    t.SetupPagination();
  }
}
