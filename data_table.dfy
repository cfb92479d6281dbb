/**
 * The generic table view: a case-insensitive search over every field of every
 * row, pages of ten rows, previous/next navigation, and the rendering
 * decisions (cells, empty state, pager and its range label).
 */
module DataTable {
  import opened Wrappers
  import opened Builtins
  import opened Json

  const PageSize: nat := 10

  /** A record as fetched from the API: its fields in `Object.values` order. */
  type Row = seq<Member>

  // ---------------------------------------------------------------------------
  // Search
  // ---------------------------------------------------------------------------

  /** One field value matches when its lower-cased string form contains the
      lower-cased search text. */
  predicate FieldMatches(v: Json, search: string) {
    Contains(ToLower(ToText(v)), ToLower(search))
  }

  /** The filter's test: `Object.values(row).some(...)`. */
  predicate Matches(row: Row, search: string) {
    exists i :: 0 <= i < |row| && FieldMatches(row[i].value, search)
  }

  /** `filteredData`. */
  function Filtered(data: seq<Row>, search: string): seq<Row> {
    Filter((row: Row) => Matches(row, search), data)
  }

  /** A row is shown iff it is in the data and one of its fields matches. */
  lemma FilteredMembership(data: seq<Row>, search: string, row: Row)
    ensures row in Filtered(data, search) <==> row in data && Matches(row, search)
  {
    FilterMembership((r: Row) => Matches(r, search), data, row);
  }

  /** The search keeps the rows it keeps in their original order. */
  lemma FilteredKeepsOrder(data: seq<Row>, search: string)
    ensures IsSubsequence(Filtered(data, search), data)
  {
    FilterIsSubsequence((r: Row) => Matches(r, search), data);
  }

  /** The search decides row by row, so it distributes over concatenation. */
  lemma FilteredConcat(a: seq<Row>, b: seq<Row>, search: string)
    ensures Filtered(a + b, search) == Filtered(a, search) + Filtered(b, search)
  {
    FilterConcat((r: Row) => Matches(r, search), a, b);
  }

  /** With no search text a row matches iff it has at least one field: `some` over
      no fields is false. */
  lemma EmptySearchMatches(row: Row)
    ensures Matches(row, "") <==> |row| > 0
  {
    if |row| > 0 {
      ContainsEmpty(ToLower(ToText(row[0].value)));
      assert FieldMatches(row[0].value, "");
    }
  }

  /** With no search text every row that has a field is shown, in order. */
  lemma EmptySearchKeepsAll(data: seq<Row>)
    requires forall i :: 0 <= i < |data| ==> |data[i]| > 0
    ensures Filtered(data, "") == data
  {
    forall i | 0 <= i < |data| ensures Matches(data[i], "") {
      EmptySearchMatches(data[i]);
    }
    FilterKeepsAll((r: Row) => Matches(r, ""), data);
  }

  /** A row without fields is never shown, whatever the search text. */
  lemma EmptyRowNeverShown(data: seq<Row>, search: string)
    ensures [] !in Filtered(data, search)
  {
    FilteredMembership(data, search, []);
  }

  // ---------------------------------------------------------------------------
  // Pagination
  // ---------------------------------------------------------------------------

  /** `Math.ceil(n / 10)`. */
  function PageCount(n: nat): (r: nat)
    ensures r == 0 <==> n == 0
    ensures n > 0 ==> (r - 1) * PageSize < n <= r * PageSize
  {
    (n + PageSize - 1) / PageSize
  }

  /** `startIndex` of page `p`. */
  function StartIndex(p: int): int {
    (p - 1) * PageSize
  }

  /** `paginatedData`: `filtered.slice(startIndex, startIndex + 10)`. */
  function PageRows(filtered: seq<Row>, p: int): seq<Row> {
    Slice(filtered, StartIndex(p), StartIndex(p) + PageSize)
  }

  /** Page `p` shows `filtered[(p-1)*10 .. min(p*10, n))`, never more than ten rows. */
  lemma PageWindow(filtered: seq<Row>, p: int)
    requires p >= 1
    ensures var start, n := (p - 1) * PageSize, |filtered|;
            var end := if p * PageSize <= n then p * PageSize else n;
            PageRows(filtered, p) == if start < n then filtered[start..end] else []
    ensures |PageRows(filtered, p)| <= PageSize
  {
    SliceWindow(filtered, StartIndex(p), PageSize);
  }

  /** Pages 1 to `k`, one after the other. */
  function PagesUpTo(filtered: seq<Row>, k: nat): seq<Row> {
    if k == 0 then [] else PagesUpTo(filtered, k - 1) + PageRows(filtered, k)
  }

  /** The first `k` pages hold the first `10 k` rows. */
  lemma {:induction false} PagesUpToPrefix(filtered: seq<Row>, k: nat)
    ensures PagesUpTo(filtered, k) == filtered[..if k * PageSize <= |filtered| then k * PageSize else |filtered|]
  {
    if k > 0 {
      PagesUpToPrefix(filtered, k - 1);
      PageWindow(filtered, k);
      var n := |filtered|;
      var lo := if (k - 1) * PageSize <= n then (k - 1) * PageSize else n;
      var hi := if k * PageSize <= n then k * PageSize else n;
      assert filtered[..lo] + filtered[lo..hi] == filtered[..hi];
    }
  }

  /** Reading pages 1 to `totalPages` in order gives back exactly the filtered rows. */
  lemma PagesReassemble(filtered: seq<Row>)
    ensures PagesUpTo(filtered, PageCount(|filtered|)) == filtered
  {
    PagesUpToPrefix(filtered, PageCount(|filtered|));
  }

  /** The previous-page handler: `Math.max(1, p - 1)`. */
  function PrevPage(p: int): int {
    if p - 1 < 1 then 1 else p - 1
  }

  /** The next-page handler: `Math.min(totalPages, p + 1)`. */
  function NextPage(p: int, totalPages: nat): int {
    if totalPages < p + 1 then totalPages else p + 1
  }

  predicate PrevDisabled(p: int) {
    p == 1
  }

  predicate NextDisabled(p: int, totalPages: nat) {
    p == totalPages
  }

  /** From any page in `[1, totalPages]` both handlers stay in that range; each
      moves by exactly one page when its button is enabled, and the buttons are
      disabled exactly at the first and the last page. */
  lemma NavigationStaysInRange(p: int, totalPages: nat)
    requires 1 <= p <= totalPages
    ensures 1 <= PrevPage(p) <= totalPages && 1 <= NextPage(p, totalPages) <= totalPages
    ensures !PrevDisabled(p) ==> PrevPage(p) == p - 1
    ensures !NextDisabled(p, totalPages) ==> NextPage(p, totalPages) == p + 1
    ensures PrevDisabled(p) <==> PrevPage(p) == p
    ensures NextDisabled(p, totalPages) <==> NextPage(p, totalPages) == p
  {
  }

  // ---------------------------------------------------------------------------
  // Rendering
  // ---------------------------------------------------------------------------

  /** How a column reads a row: a field key, or a function of the whole row that
      yields a rendered node of type `N`. */
  datatype Accessor<N> = Key(key: string) | Derived(derive: Row -> N)

  datatype Column<N> = Column(header: string, accessor: Accessor<N>)

  datatype Cell<N> = Node(node: N) | Text(text: string)

  /** A cell: the accessor's result, or `String(row[key])` (`"undefined"` for a
      missing field). */
  function RenderCell<N>(column: Column<N>, row: Row): (c: Cell<N>)
    ensures column.accessor.Derived? ==> c == Node(column.accessor.derive(row))
    ensures column.accessor.Key? && Lookup(row, column.accessor.key).Some? ==>
      c == Text(ToText(Lookup(row, column.accessor.key).value))
    ensures column.accessor.Key? && Lookup(row, column.accessor.key).None? ==> c == Text("undefined")
  {
    match column.accessor
    case Derived(f) => Node(f(row))
    case Key(k) => var v := Lookup(row, k); Text(if v.Some? then ToText(v.value) else "undefined")
  }

  function RenderRow<N>(columns: seq<Column<N>>, row: Row): (cells: seq<Cell<N>>)
    ensures |cells| == |columns|
    ensures forall j :: 0 <= j < |columns| ==> cells[j] == RenderCell(columns[j], row)
  {
    seq(|columns|, j requires 0 <= j < |columns| => RenderCell(columns[j], row))
  }

  /** The range label and the state of the two buttons. */
  datatype Pager = Pager(from: int, to: int, of: nat, page: int, pageCount: nat,
                         prevDisabled: bool, nextDisabled: bool)

  datatype TableBody<N> = EmptyState | Rows(rows: seq<seq<Cell<N>>>)

  datatype View<N> = View(resultCount: nat, resultWord: string, body: TableBody<N>, pager: Option<Pager>)

  /** What the component renders for its inputs and state. */
  function Render<N>(data: seq<Row>, columns: seq<Column<N>>, search: string, page: int): View<N> {
    var filtered := Filtered(data, search);
    var n := |filtered|;
    var total := PageCount(n);
    var start := StartIndex(page);
    var shown := PageRows(filtered, page);
    var body: TableBody<N> :=
      if |shown| == 0 then EmptyState
      else Rows(seq(|shown|, i requires 0 <= i < |shown| => RenderRow(columns, shown[i])));
    var upTo := if start + PageSize < n then start + PageSize else n;
    var pager := if total > 1
      then Some(Pager(start + 1, upTo, n, page, total, PrevDisabled(page), NextDisabled(page, total)))
      else None;
    View(n, if n == 1 then "resultado" else "resultados", body, pager)
  }

  /** The empty-state row appears iff the current page has no rows; otherwise the
      body has one row per shown record, each rendered column by column. */
  lemma RenderBody<N>(data: seq<Row>, columns: seq<Column<N>>, search: string, page: int)
    ensures var v := Render(data, columns, search, page);
            var shown := PageRows(Filtered(data, search), page);
            (v.body.EmptyState? <==> shown == [])
            && (v.body.Rows? ==>
                  (|v.body.rows| == |shown|
                   && forall i :: 0 <= i < |shown| ==> v.body.rows[i] == RenderRow(columns, shown[i])))
  {
  }

  /** The pager is shown only with more than one page; its label runs from
      `startIndex + 1` to `min(startIndex + 10, n)` and, on a page in range,
      counts exactly the rows shown. */
  lemma RenderPager<N>(data: seq<Row>, columns: seq<Column<N>>, search: string, page: int)
    ensures var v := Render(data, columns, search, page);
            var n := |Filtered(data, search)|;
            (v.pager.Some? <==> PageCount(n) > 1)
            && (v.pager.Some? ==>
                  v.pager.value.from == StartIndex(page) + 1
                  && v.pager.value.to == (if StartIndex(page) + PageSize < n then StartIndex(page) + PageSize else n)
                  && v.pager.value.of == n)
            && (v.pager.Some? && 1 <= page <= PageCount(n) ==>
                  v.pager.value.to - v.pager.value.from + 1 == |PageRows(Filtered(data, search), page)|)
  {
    var filtered := Filtered(data, search);
    if 1 <= page {
      PageWindow(filtered, page);
    }
  }

  /** On a page inside `[1, max(1, totalPages)]` the empty state appears iff no row
      matches the search. */
  lemma EmptyStateIffNothingMatches<N>(data: seq<Row>, columns: seq<Column<N>>, search: string, page: int)
    requires var total := PageCount(|Filtered(data, search)|);
             1 <= page <= (if total < 1 then 1 else total)
    ensures Render(data, columns, search, page).body.EmptyState? <==> Filtered(data, search) == []
  {
    var filtered := Filtered(data, search);
    PageWindow(filtered, page);
    if filtered != [] {
      assert (page - 1) * PageSize < |filtered|;
    }
  }

  // ---------------------------------------------------------------------------
  // The component's state
  // ---------------------------------------------------------------------------

  /** One mounted table: its props (`data`, `columns`, whether `onRowClick` was
      given) and its two state variables. */
  class Table<N> {
    const data: seq<Row>
    const columns: seq<Column<N>>
    const hasRowClick: bool
    var search: string
    var currentPage: int

    function Shown(): seq<Row>
      reads this
    {
      Filtered(data, search)
    }

    function TotalPages(): nat
      reads this
    {
      PageCount(|Shown()|)
    }

    function VisibleRows(): seq<Row>
      reads this
    {
      PageRows(Shown(), currentPage)
    }

    /** The current page stays inside `[1, max(1, totalPages)]`. */
    ghost predicate Valid()
      reads this
    {
      1 <= currentPage <= (if TotalPages() < 1 then 1 else TotalPages())
    }

    constructor (data: seq<Row>, columns: seq<Column<N>>, hasRowClick: bool)
      ensures Valid()
      ensures this.data == data && this.columns == columns && this.hasRowClick == hasRowClick
      ensures search == "" && currentPage == 1
    {
      this.data := data;
      this.columns := columns;
      this.hasRowClick := hasRowClick;
      search := "";
      currentPage := 1;
    }

    /** The search box's `onChange`: new text, back to page 1. */
    method SetSearch(text: string)
      modifies this
      ensures search == text && currentPage == 1
      ensures Valid()
    {
      search := text;
      currentPage := 1;
    }

    /** A click on "Anterior"; the button exists only when there is more than one
        page and is disabled on page 1. */
    method ClickPrevious()
      requires Valid()
      modifies this`currentPage
      ensures Valid()
      ensures currentPage == if old(TotalPages()) > 1 && !PrevDisabled(old(currentPage))
                             then PrevPage(old(currentPage)) else old(currentPage)
    {
      if TotalPages() > 1 && !PrevDisabled(currentPage) {
        currentPage := PrevPage(currentPage);
      }
    }

    /** A click on "Siguiente"; the button exists only when there is more than one
        page and is disabled on the last page. */
    method ClickNext()
      requires Valid()
      modifies this`currentPage
      ensures Valid()
      ensures currentPage == if old(TotalPages()) > 1 && !NextDisabled(old(currentPage), old(TotalPages()))
                             then NextPage(old(currentPage), old(TotalPages())) else old(currentPage)
    {
      if TotalPages() > 1 && !NextDisabled(currentPage, TotalPages()) {
        currentPage := NextPage(currentPage, TotalPages());
      }
    }

    /** A click on the `i`-th shown row: `onRowClick` receives exactly that row,
        and nothing happens without a callback. */
    method ClickRow(i: nat) returns (delivered: Option<Row>)
      requires i < |VisibleRows()|
      ensures delivered == if hasRowClick then Some(VisibleRows()[i]) else None
    {
      if hasRowClick {
        delivered := Some(VisibleRows()[i]);
      } else {
        delivered := None;
      }
    }

    function View(): View<N>
      reads this
    {
      Render(data, columns, search, currentPage)
    }
  }

  // ---------------------------------------------------------------------------
  // Worked scenarios
  // ---------------------------------------------------------------------------

  function IdRow(id: int): Row {
    [Member("id", JNum(id))]
  }

  /** Twenty-five rows `{id: 1..25}` and no search: three pages of 10, 10 and 5,
      "Anterior" disabled on page 1 and "Siguiente" on page 3. */
  lemma TwentyFiveRows()
    ensures var data := seq(25, i => IdRow(i + 1));
            var f := Filtered(data, "");
            && f == data
            && PageCount(|f|) == 3
            && PageRows(f, 1) == seq(10, i => IdRow(i + 1))
            && PageRows(f, 2) == seq(10, i => IdRow(i + 11))
            && PageRows(f, 3) == seq(5, i => IdRow(i + 21))
            && PrevDisabled(1) && !NextDisabled(1, 3)
            && NextDisabled(3, 3) && !PrevDisabled(3)
  {
    var data := seq(25, i => IdRow(i + 1));
    EmptySearchKeepsAll(data);
    PageWindow(data, 1);
    PageWindow(data, 2);
    PageWindow(data, 3);
  }

  /** Searching "an" in `[{name: "Ana"}, {name: "Luis"}]` keeps only Ana. */
  lemma SearchAna()
    ensures Filtered([[Member("name", JStr("Ana"))], [Member("name", JStr("Luis"))]], "an")
         == [[Member("name", JStr("Ana"))]]
  {
    var ana, luis: Row := [Member("name", JStr("Ana"))], [Member("name", JStr("Luis"))];
    assert ToLower("Ana") == "ana";
    assert ToLower("an") == "an";
    assert ToLower("Luis") == "luis";
    assert Matches(ana, "an") by {
      assert FieldMatches(ana[0].value, "an");
    }
    assert !Contains("luis", "an") by {
      assert !Contains("uis", "an") by {
        assert !Contains("is", "an") by {
          assert !Contains("s", "an");
        }
      }
    }
    assert !Matches(luis, "an");
    assert [ana, luis][1..] == [luis];
  }

  /** With no data the body is the empty state, whatever the search and the page. */
  lemma NoDataEmptyState<N>(columns: seq<Column<N>>, search: string, page: int)
    ensures Render([], columns, search, page).body == EmptyState
    ensures Render([], columns, search, page).pager == None
  {
  }
}
