/** The view logic of the generic `Table` component: the sort configuration and
    its toggle, sort-then-filter of the rows, page slicing and the page count,
    the "Showing X to Y" bounds, the Previous/Next clamps, and the row-selection
    and column-visibility sets. The fetch in backend mode is a parameter: its
    result is handed in. */
module Table {
  import opened Common

  // ---------------------------------------------------------------------------
  // Rows and cells

  /** A cell value: a number, or a string. */
  datatype Cell = Num(n: int) | Text(s: string)

  /** A row object, by field name. */
  type Row = map<string, Cell>

  /** `String(value)`. */
  function CellString(c: Cell): string {
    match c
    case Num(n) => DecimalString(n)
    case Text(s) => s
  }

  /** `a < b` on two cell values: numbers numerically, strings by code unit.
      A number and a string never compare as less (the string is read as NaN). */
  predicate CellLess(a: Cell, b: Cell) {
    match (a, b)
    case (Num(x), Num(y)) => x < y
    case (Text(x), Text(y)) => StrLess(x, y)
    case _ => false
  }

  // ---------------------------------------------------------------------------
  // Sort configuration (`handleSort`)

  /** `""`, `"ascending"` or `"descending"`. */
  datatype Direction = Unset | Ascending | Descending

  datatype SortConfig = SortConfig(key: string, direction: Direction)

  const InitialSort: SortConfig := SortConfig("", Unset)

  /** A click on the header of column `key`. */
  function NextSort(current: SortConfig, key: string): (r: SortConfig)
    ensures r.key == key && r.direction != Unset
    ensures r.direction == Descending <==> current.key == key && current.direction == Ascending
  {
    SortConfig(key,
      if current.key == key && current.direction == Ascending then Descending else Ascending)
  }

  /** Repeated clicks on one header alternate the direction, starting ascending
      when the column was not the sorted one. */
  lemma SortClicksAlternate(current: SortConfig, key: string)
    ensures current.key != key ==> NextSort(current, key).direction == Ascending
    ensures NextSort(NextSort(current, key), key).direction != NextSort(current, key).direction
    ensures NextSort(NextSort(NextSort(current, key), key), key) == NextSort(current, key)
  {
  }

  /** Sorting is active when both the key and the direction are non-empty. */
  predicate SortActive(config: SortConfig) {
    config.key != "" && config.direction != Unset
  }

  // ---------------------------------------------------------------------------
  // Sorting by the comparator

  /** The comparator returns a negative number: `a` goes strictly before `b`. A
      row without the field holds `undefined`, which is never less nor greater. */
  predicate Before(a: Row, b: Row, key: string, dir: Direction) {
    if dir == Descending then key in a && key in b && CellLess(b[key], a[key])
    else key in a && key in b && CellLess(a[key], b[key])
  }

  /** No row is strictly before a row that precedes it. */
  predicate Sorted(s: seq<Row>, key: string, dir: Direction) {
    forall i, j :: 0 <= i < j < |s| ==> !Before(s[j], s[i], key, dir)
  }

  /** Every row carries the field, as a number (`num`) or as a string (`!num`). */
  predicate Uniform(s: seq<Row>, key: string, num: bool) {
    forall r: Row :: r in s ==> key in r && r[key].Num? == num
  }

  /** Places `x` in front of the first row not strictly before it. */
  function Insert(x: Row, s: seq<Row>, key: string, dir: Direction): seq<Row>
    decreases |s|
  {
    if s == [] then [x]
    else if Before(s[0], x, key, dir) then [s[0]] + Insert(x, s[1..], key, dir)
    else [x] + s
  }

  /** `Array.prototype.sort` with the column comparator, as a stable insertion sort. */
  function Sort(s: seq<Row>, key: string, dir: Direction): seq<Row>
    decreases |s|
  {
    if s == [] then [] else Insert(s[0], Sort(s[1..], key, dir), key, dir)
  }

  lemma {:induction false} InsertPermutes(x: Row, s: seq<Row>, key: string, dir: Direction)
    ensures multiset(Insert(x, s, key, dir)) == multiset(s) + multiset{x}
    decreases |s|
  {
    if s != [] && Before(s[0], x, key, dir) {
      InsertPermutes(x, s[1..], key, dir);
      assert s == [s[0]] + s[1..];
    }
  }

  /** The sort only reorders: the result is a permutation of its input. */
  lemma {:induction false} SortPermutes(s: seq<Row>, key: string, dir: Direction)
    ensures multiset(Sort(s, key, dir)) == multiset(s)
    decreases |s|
  {
    if s != [] {
      SortPermutes(s[1..], key, dir);
      InsertPermutes(s[0], Sort(s[1..], key, dir), key, dir);
      assert s == [s[0]] + s[1..];
    }
  }

  /** On one field of one kind, "not before" is transitive. */
  lemma NotBeforeTransitive(a: Row, b: Row, c: Row, key: string, dir: Direction, num: bool)
    requires Uniform([a, b, c], key, num)
    requires !Before(b, a, key, dir) && !Before(c, b, key, dir)
    ensures !Before(c, a, key, dir)
  {
    assert a in [a, b, c] && b in [a, b, c] && c in [a, b, c];
    if !num {
      var x, y, z := a[key].s, b[key].s, c[key].s;
      if dir == Descending {
        if StrLess(x, z) && y != z {
          StrLessTotal(y, z);
          StrLessTransitive(x, z, y);
        }
      } else {
        if StrLess(z, x) && x != y {
          StrLessTotal(x, y);
          StrLessTransitive(z, x, y);
        }
      }
    }
  }

  /** On one field of one kind, "before" is asymmetric. */
  lemma BeforeAsymmetric(a: Row, b: Row, key: string, dir: Direction)
    requires Before(a, b, key, dir)
    ensures !Before(b, a, key, dir)
  {
    if a[key].Text? && b[key].Text? {
      if dir == Descending {
        StrLessAsymmetric(b[key].s, a[key].s);
      } else {
        StrLessAsymmetric(a[key].s, b[key].s);
      }
    }
  }

  /** A row of `Insert(x, s)` is `x` or a row of `s`. */
  lemma {:induction false} InsertMembers(x: Row, s: seq<Row>, key: string, dir: Direction, r: Row)
    requires r in Insert(x, s, key, dir)
    ensures r == x || r in s
    decreases |s|
  {
    if s != [] && Before(s[0], x, key, dir) && r != s[0] {
      InsertMembers(x, s[1..], key, dir, r);
    }
  }

  /** A sorted sequence stays sorted under a head no later row is before. */
  lemma PrependSorted(h: Row, t: seq<Row>, key: string, dir: Direction)
    requires Sorted(t, key, dir)
    requires forall j :: 0 <= j < |t| ==> !Before(t[j], h, key, dir)
    ensures Sorted([h] + t, key, dir)
  {
    var r := [h] + t;
    forall i, j | 0 <= i < j < |r| ensures !Before(r[j], r[i], key, dir) {
      assert r[j] == t[j - 1];
      if i > 0 {
        assert r[i] == t[i - 1];
      }
    }
  }

  lemma {:induction false} InsertSorted(x: Row, s: seq<Row>, key: string, dir: Direction, num: bool)
    requires Sorted(s, key, dir) && Uniform(s, key, num) && key in x && x[key].Num? == num
    ensures Sorted(Insert(x, s, key, dir), key, dir)
    decreases |s|
  {
    if s == [] {
    } else if Before(s[0], x, key, dir) {
      var tail := Insert(x, s[1..], key, dir);
      assert Sorted(s[1..], key, dir) && Uniform(s[1..], key, num) by {
        forall i, j | 0 <= i < j < |s[1..]| ensures !Before(s[1..][j], s[1..][i], key, dir) {
          assert s[1..][i] == s[i + 1] && s[1..][j] == s[j + 1];
        }
      }
      InsertSorted(x, s[1..], key, dir, num);
      BeforeAsymmetric(s[0], x, key, dir);
      forall j | 0 <= j < |tail| ensures !Before(tail[j], s[0], key, dir) {
        InsertMembers(x, s[1..], key, dir, tail[j]);
        if tail[j] != x {
          var k :| 0 <= k < |s[1..]| && s[1..][k] == tail[j];
          assert s[k + 1] == tail[j];
        }
      }
      PrependSorted(s[0], tail, key, dir);
    } else {
      forall j | 0 <= j < |s| ensures !Before(s[j], x, key, dir) {
        if j > 0 {
          assert s[0] in s && s[j] in s;
          NotBeforeTransitive(x, s[0], s[j], key, dir, num);
        }
      }
      PrependSorted(x, s, key, dir);
    }
  }

  /** When every row carries the sort field with one kind of value, the sort puts
      the rows in order. */
  lemma {:induction false} SortSorted(s: seq<Row>, key: string, dir: Direction, num: bool)
    requires Uniform(s, key, num)
    ensures Sorted(Sort(s, key, dir), key, dir)
    decreases |s|
  {
    if s != [] {
      assert Uniform(s[1..], key, num) by {
        forall r: Row | r in s[1..] ensures key in r && r[key].Num? == num {
          assert r in s;
        }
      }
      SortSorted(s[1..], key, dir, num);
      SortPermutes(s[1..], key, dir);
      var t := Sort(s[1..], key, dir);
      forall r: Row | r in t ensures key in r && r[key].Num? == num {
        assert r in multiset(t);
        assert r in s[1..];
      }
      assert s[0] in s;
      InsertSorted(s[0], t, key, dir, num);
    }
  }

  // ---------------------------------------------------------------------------
  // Search filter

  /** Some field's `String(value).toLowerCase()` includes `query.toLowerCase()`. */
  predicate Matches(r: Row, query: string) {
    exists k :: k in r && Contains(Lower(CellString(r[k])), Lower(query))
  }

  /** `filter` with `Matches`, in order. */
  function FilterRows(s: seq<Row>, query: string): seq<Row>
    decreases |s|
  {
    if s == [] then []
    else (if Matches(s[0], query) then [s[0]] else []) + FilterRows(s[1..], query)
  }

  /** A row survives the filter exactly when it is a row of the input that matches. */
  lemma {:induction false} FilterMembers(s: seq<Row>, query: string, r: Row)
    ensures r in FilterRows(s, query) <==> r in s && Matches(r, query)
    decreases |s|
  {
    if s != [] {
      FilterMembers(s[1..], query, r);
      assert r in s <==> r == s[0] || r in s[1..] by {
        assert s == [s[0]] + s[1..];
      }
    }
  }

  /** Filtering distributes over concatenation, so it keeps the input's order. */
  lemma {:induction false} FilterAppend(a: seq<Row>, b: seq<Row>, query: string)
    ensures FilterRows(a + b, query) == FilterRows(a, query) + FilterRows(b, query)
    decreases |a|
  {
    if a != [] {
      FilterAppend(a[1..], b, query);
      var h := if Matches(a[0], query) then [a[0]] else [];
      assert (a + b)[0] == a[0] && (a + b)[1..] == a[1..] + b;
      assert FilterRows(a + b, query) == h + (FilterRows(a[1..], query) + FilterRows(b, query));
      assert h + (FilterRows(a[1..], query) + FilterRows(b, query))
          == (h + FilterRows(a[1..], query)) + FilterRows(b, query);
    } else {
      assert a + b == b;
    }
  }

  /** Filtering keeps the rows in sorted order. */
  lemma {:induction false} FilterKeepsSorted(s: seq<Row>, query: string, key: string, dir: Direction)
    requires Sorted(s, key, dir)
    ensures Sorted(FilterRows(s, query), key, dir)
    decreases |s|
  {
    if s != [] {
      var tail := FilterRows(s[1..], query);
      assert Sorted(s[1..], key, dir) by {
        forall i, j | 0 <= i < j < |s[1..]| ensures !Before(s[1..][j], s[1..][i], key, dir) {
          assert s[1..][i] == s[i + 1] && s[1..][j] == s[j + 1];
        }
      }
      FilterKeepsSorted(s[1..], query, key, dir);
      if Matches(s[0], query) {
        forall j | 0 <= j < |tail| ensures !Before(tail[j], s[0], key, dir) {
          FilterMembers(s[1..], query, tail[j]);
          var k :| 0 <= k < |s[1..]| && s[1..][k] == tail[j];
          assert s[k + 1] == tail[j];
        }
        PrependSorted(s[0], tail, key, dir);
      }
    }
  }

  // ---------------------------------------------------------------------------
  // processedData

  /** The rows the table shows before paging: in backend mode the fetched page
      as is; otherwise the `data` prop, sorted when a sort is active, then
      filtered when the query is non-empty. */
  function ProcessedData(backend: bool, data: seq<Row>, tableData: seq<Row>,
                         config: SortConfig, query: string): seq<Row>
  {
    if backend then tableData
    else
      var sorted := if SortActive(config) then Sort(data, config.key, config.direction) else data;
      if query != "" then FilterRows(sorted, query) else sorted
  }

  /** In frontend mode the processed rows are rows of `data` that match the query
      (every row of `data` when the query is empty), and each matching row keeps
      its number of copies. */
  lemma ProcessedDataMembers(data: seq<Row>, tableData: seq<Row>, config: SortConfig,
                             query: string, r: Row)
    ensures r in ProcessedData(false, data, tableData, config, query) <==>
      r in data && (query == "" || Matches(r, query))
    ensures query == "" ==>
      multiset(ProcessedData(false, data, tableData, config, query)) == multiset(data)
  {
    var sorted := if SortActive(config) then Sort(data, config.key, config.direction) else data;
    if SortActive(config) {
      SortPermutes(data, config.key, config.direction);
    }
    assert r in sorted <==> r in data by {
      assert r in sorted <==> r in multiset(sorted);
      assert r in data <==> r in multiset(data);
    }
    if query != "" {
      FilterMembers(sorted, query, r);
    }
  }

  /** With an active sort on a field every row carries with one kind of value,
      the processed rows are in order in frontend mode. */
  lemma ProcessedDataSorted(data: seq<Row>, tableData: seq<Row>, config: SortConfig,
                            query: string, num: bool)
    requires SortActive(config) && Uniform(data, config.key, num)
    ensures Sorted(ProcessedData(false, data, tableData, config, query), config.key, config.direction)
  {
    SortSorted(data, config.key, config.direction, num);
    if query != "" {
      FilterKeepsSorted(Sort(data, config.key, config.direction), query, config.key, config.direction);
    }
  }

  // ---------------------------------------------------------------------------
  // Paging

  /** `Array.prototype.slice(start, end)`: negative bounds count from the end,
      both bounds clamp to the length, and an empty range gives `[]`. */
  function SliceIndex(i: int, len: nat): (r: nat)
    ensures r <= len
    ensures 0 <= i ==> r == if i < len then i else len
    ensures i < 0 ==> r == if len + i > 0 then len + i else 0
  {
    if i < 0 then (if len + i > 0 then len + i else 0)
    else if i < len then i else len
  }

  function Slice<T>(s: seq<T>, start: int, end: int): seq<T> {
    var b, e := SliceIndex(start, |s|), SliceIndex(end, |s|);
    if b < e then s[b..e] else []
  }

  /** Within bounds `slice` is the subsequence; a negative start takes that many
      rows off the end; a start at or past the end, or an end at or before the
      start, gives no rows; and with bounds that are not negative it never
      yields more than `end - start` rows. */
  lemma SliceWithin<T>(s: seq<T>, start: int, end: int)
    ensures 0 <= start <= end <= |s| ==> Slice(s, start, end) == s[start..end]
    ensures 0 < -start <= |s| && end == |s| ==> Slice(s, start, end) == s[|s| + start..]
    ensures start >= |s| || (0 <= end <= start) ==> Slice(s, start, end) == []
    ensures 0 <= start && 0 <= end ==> |Slice(s, start, end)| <= if end >= start then end - start else 0
  {
  }

  /** `paginatedData` in frontend mode: `itemsPerPage` rows starting at
      `(currentPage - 1) * itemsPerPage`. */
  function Paginate(rows: seq<Row>, page: int, perPage: nat): seq<Row> {
    var start := (page - 1) * perPage;
    Slice(rows, start, start + perPage)
  }

  /** `Math.ceil(len / perPage)`. */
  function TotalPages(len: nat, perPage: nat): (r: nat)
    requires perPage > 0
  {
    (len + perPage - 1) / perPage
  }

  /** The page count is the least number of pages that hold every row. */
  lemma TotalPagesCeiling(len: nat, perPage: nat)
    requires perPage > 0
    ensures TotalPages(len, perPage) * perPage >= len
    ensures TotalPages(len, perPage) > 0 ==> (TotalPages(len, perPage) - 1) * perPage < len
    ensures TotalPages(len, perPage) == 0 <==> len == 0
  {
    var t := TotalPages(len, perPage);
    assert t * perPage <= len + perPage - 1 < (t + 1) * perPage;
  }

  /** No page holds more than `itemsPerPage` rows; a page in range is the slice
      `[(p-1)*n, min(p*n, len))`; page 0, reached by Next when there are no pages,
      is empty. */
  lemma PaginateBounds(rows: seq<Row>, page: int, perPage: nat)
    ensures |Paginate(rows, page, perPage)| <= perPage
    ensures 1 <= page && (page - 1) * perPage < |rows| ==>
      Paginate(rows, page, perPage) ==
        rows[(page - 1) * perPage .. if page * perPage < |rows| then page * perPage else |rows|]
    ensures page == 0 ==> Paginate(rows, page, perPage) == []
  {
    var start := (page - 1) * perPage;
    assert page * perPage == start + perPage;
    var b, e := SliceIndex(start, |rows|), SliceIndex(start + perPage, |rows|);
    assert b < e ==> e - b <= perPage;
    if page == 0 {
      assert start == -(perPage as int);
      assert e == 0;
    }
  }

  /** Row `i` is shown on page `i / n + 1`, at position `i % n`: the pages
      together show every row exactly where it stands. */
  lemma RowOnItsPage(rows: seq<Row>, perPage: nat, i: nat)
    requires perPage > 0 && i < |rows|
    ensures var page := Paginate(rows, i / perPage + 1, perPage);
      i % perPage < |page| && page[i % perPage] == rows[i]
    ensures i / perPage + 1 <= TotalPages(|rows|, perPage)
  {
    var d, m := i / perPage, i % perPage;
    var start := d * perPage;
    assert i == start + m && 0 <= m < perPage;
    PageStart(rows, d, perPage, start);
    var end := if start + perPage < |rows| then start + perPage else |rows|;
    assert rows[start..end][m] == rows[i];
    PageInRange(|rows|, perPage, i);
  }

  lemma PageStart(rows: seq<Row>, d: nat, perPage: nat, start: nat)
    requires start == d * perPage && start < |rows|
    ensures Paginate(rows, d + 1, perPage) ==
      rows[start..if start + perPage < |rows| then start + perPage else |rows|]
  {
    assert (d + 1 - 1) * perPage == start;
  }

  lemma PageInRange(len: nat, perPage: nat, i: nat)
    requires perPage > 0 && i < len
    ensures i / perPage + 1 <= TotalPages(len, perPage)
  {
    var d := i / perPage;
    TotalPagesCeiling(len, perPage);
    var t := TotalPages(len, perPage);
    if d + 1 > t {
      MulMonotone(t, d, perPage);
    }
  }

  lemma MulMonotone(a: nat, b: nat, n: nat)
    requires a <= b
    ensures a * n <= b * n
  {
  }

  /** The backend fetch asks for `skip = (currentPage - 1) * itemsPerPage` and
      `limit = itemsPerPage`. */
  datatype FetchRequest = FetchRequest(skip: int, limit: nat)

  function BackendRequest(page: int, perPage: nat): (r: FetchRequest)
    ensures r.limit == perPage
    ensures page >= 1 ==> r.skip >= 0
  {
    FetchRequest((page - 1) * perPage, perPage)
  }

  /** The fetched windows of consecutive pages tile the collection. */
  lemma BackendRequestsTile(page: int, perPage: nat)
    ensures BackendRequest(page + 1, perPage).skip ==
      BackendRequest(page, perPage).skip + BackendRequest(page, perPage).limit
    ensures BackendRequest(1, perPage).skip == 0
  {
  }

  /** "Showing X to Y of total". */
  function ShowingFrom(page: int, perPage: nat, total: nat): int {
    var x := (page - 1) * perPage + 1;
    if x < total then x else total
  }

  function ShowingTo(page: int, perPage: nat, total: nat): int {
    var y := page * perPage;
    if y < total then y else total
  }

  /** On a page in range of the frontend rows, the bounds are 1-based positions
      of the first and last row shown, so they count exactly the rows shown. */
  lemma ShowingMatchesPage(rows: seq<Row>, page: int, perPage: nat)
    requires perPage > 0 && 1 <= page <= TotalPages(|rows|, perPage)
    ensures ShowingFrom(page, perPage, |rows|) == (page - 1) * perPage + 1
    ensures ShowingFrom(page, perPage, |rows|) <= ShowingTo(page, perPage, |rows|)
    ensures ShowingTo(page, perPage, |rows|) - ShowingFrom(page, perPage, |rows|) + 1
      == |Paginate(rows, page, perPage)|
  {
    TotalPagesCeiling(|rows|, perPage);
    assert (page - 1) * perPage <= (TotalPages(|rows|, perPage) - 1) * perPage;
    PaginateBounds(rows, page, perPage);
  }

  /** The Previous button: `Math.max(1, p - 1)`. */
  function PrevPage(page: int): (r: int)
    ensures r >= 1
  {
    if page - 1 > 1 then page - 1 else 1
  }

  /** The Next button: `Math.min(totalPages, p + 1)`. */
  function NextPage(page: int, totalPages: nat): (r: int)
    ensures r <= totalPages
  {
    if page + 1 < totalPages then page + 1 else totalPages
  }

  /** On a page in range both buttons stay in range, moving by at most one page;
      with no pages at all, Next from page 1 goes to page 0. */
  lemma PageButtonsInRange(page: int, totalPages: nat)
    ensures 1 <= page <= totalPages ==>
      && 1 <= PrevPage(page) <= totalPages && 1 <= NextPage(page, totalPages) <= totalPages
      && page - 1 <= PrevPage(page) <= page && page <= NextPage(page, totalPages) <= page + 1
    ensures NextPage(1, 0) == 0 && PrevPage(0) == 1
  {
  }

  /** The page is not reset when `totalItems` or `data` shrink the page count,
      so a page beyond the new count is reachable, and from two or more pages
      past it Previous stays out of range. */
  lemma StalePageStaysOutOfRange(page: int, total: nat, perPage: nat)
    requires perPage > 0 && page > TotalPages(total, perPage) + 1
    ensures PrevPage(page) == page - 1 && PrevPage(page) > TotalPages(total, perPage)
  {
  }

  /** With no rows yet, Next sets page 0; once a later fetch brings rows, page 0
      is below the first page. */
  lemma PageZeroAfterEmptyFetch(total: nat, perPage: nat)
    requires perPage > 0 && total > 0
    ensures NextPage(1, TotalPages(0, perPage)) == 0
    ensures TotalPages(total, perPage) >= 1
  {
    TotalPagesCeiling(total, perPage);
  }

  // ---------------------------------------------------------------------------
  // Row selection and column visibility

  /** `handleSelectRow` and `toggleColumnVisibility`: delete when present, add when absent. */
  function Toggle<T>(s: set<T>, x: T): set<T> {
    if x in s then s - {x} else s + {x}
  }

  /** A toggle flips membership of its element, leaves every other element alone
      and undoes itself. */
  lemma ToggleInvolution<T>(s: set<T>, x: T)
    ensures x in Toggle(s, x) <==> x !in s
    ensures forall y :: y != x ==> (y in Toggle(s, x) <==> y in s)
    ensures Toggle(Toggle(s, x), x) == s
  {
  }

  /** The indices of a page of `n` rows. */
  function Indices(n: nat): (r: set<int>)
    ensures forall i :: i in r <==> 0 <= i < n
  {
    if n == 0 then {} else Indices(n - 1) + {n - 1}
  }

  lemma {:induction false} IndicesSize(n: nat)
    ensures |Indices(n)| == n
    decreases n
  {
    if n > 0 {
      IndicesSize(n - 1);
      var prev := Indices(n - 1);
      assert n - 1 !in prev;
      assert |prev + {n - 1}| == |prev| + 1;
    }
  }

  /** `handleSelectAll`: clears the selection when its size equals the page
      length, else selects every index of the page. */
  function SelectAll(selected: set<int>, pageLength: nat): set<int> {
    if |selected| == pageLength then {} else Indices(pageLength)
  }

  /** Select-all yields the empty set or exactly the page's indices, and a second
      click clears what the first selected. */
  lemma SelectAllEffect(selected: set<int>, pageLength: nat)
    ensures |selected| == pageLength ==> SelectAll(selected, pageLength) == {}
    ensures |selected| != pageLength ==>
      forall i :: i in SelectAll(selected, pageLength) <==> 0 <= i < pageLength
    ensures |selected| != pageLength ==> SelectAll(SelectAll(selected, pageLength), pageLength) == {}
  {
    IndicesSize(pageLength);
  }

  // ---------------------------------------------------------------------------
  // The component's state

  class TableState {
    /** Props. The parent re-renders with new `data` and `totalItems`; the
        mode and the page size are fixed by each caller. */
    var data: seq<Row>
    const backend: bool
    var totalItems: nat
    const itemsPerPage: nat

    var searchQuery: string
    var sortConfig: SortConfig
    var currentPage: int
    var selectedRows: set<int>
    var visibleColumns: set<string>
    var tableData: seq<Row>

    function Processed(): seq<Row>
      reads this
    {
      ProcessedData(backend, data, tableData, sortConfig, searchQuery)
    }

    function Pages(): nat
      reads this
      requires itemsPerPage > 0
    {
      TotalPages(if backend then totalItems else |Processed()|, itemsPerPage)
    }

    function PaginatedData(): seq<Row>
      reads this
    {
      if backend then tableData else Paginate(Processed(), currentPage, itemsPerPage)
    }

    ghost predicate Valid()
      reads this
    {
      itemsPerPage > 0
    }

    /** The current page is in range; with no pages it is 0 or 1. Nothing in the
        component restores this when the props shrink the page count. */
    ghost predicate PageInRange()
      reads this
    {
      && itemsPerPage > 0
      && (if Pages() == 0 then 0 <= currentPage <= 1 else 1 <= currentPage <= Pages())
    }

    constructor (data: seq<Row>, backend: bool, totalItems: nat, columns: seq<string>, itemsPerPage: nat)
      requires itemsPerPage > 0
      ensures Valid() && PageInRange()
      ensures this.data == data && this.backend == backend
      ensures this.totalItems == totalItems && this.itemsPerPage == itemsPerPage
      ensures searchQuery == "" && sortConfig == InitialSort && currentPage == 1
      ensures selectedRows == {} && tableData == data
      ensures visibleColumns == set i | 0 <= i < |columns| :: columns[i]
    {
      this.data := data;
      this.backend := backend;
      this.totalItems := totalItems;
      this.itemsPerPage := itemsPerPage;
      searchQuery := "";
      sortConfig := InitialSort;
      currentPage := 1;
      selectedRows := {};
      visibleColumns := set i | 0 <= i < |columns| :: columns[i];
      tableData := data;
    }

    /** The fetch request the backend effect issues for the current page. */
    function CurrentRequest(): (r: FetchRequest)
      reads this
      ensures r.limit == itemsPerPage
      ensures currentPage >= 1 ==> r.skip >= 0
      ensures r.skip + r.limit == BackendRequest(currentPage + 1, itemsPerPage).skip
    {
      BackendRequest(currentPage, itemsPerPage)
    }

    /** The parent re-renders with new props. `tableData` was seeded from `data`
        once and is not resynchronised, and the page is not reset. */
    method ReceiveProps(newData: seq<Row>, newTotal: nat)
      requires Valid()
      modifies this
      ensures Valid() && data == newData && totalItems == newTotal
      ensures searchQuery == old(searchQuery) && sortConfig == old(sortConfig)
      ensures currentPage == old(currentPage) && tableData == old(tableData)
      ensures selectedRows == old(selectedRows) && visibleColumns == old(visibleColumns)
    {
      data := newData;
      totalItems := newTotal;
    }

    /** The backend effect storing the fetched page. */
    method ApplyFetchResult(result: seq<Row>)
      requires Valid()
      modifies this
      ensures Valid() && tableData == result
      ensures searchQuery == old(searchQuery) && sortConfig == old(sortConfig)
      ensures currentPage == old(currentPage)
      ensures selectedRows == old(selectedRows) && visibleColumns == old(visibleColumns)
    {
      tableData := result;
    }

    /** Typing in the search box; the effect on `searchQuery` resets the page to 1. */
    method SetSearchQuery(query: string)
      requires Valid()
      modifies this
      ensures Valid() && PageInRange() && searchQuery == query && currentPage == 1
      ensures sortConfig == old(sortConfig) && tableData == old(tableData)
      ensures selectedRows == old(selectedRows) && visibleColumns == old(visibleColumns)
    {
      searchQuery := query;
      currentPage := 1;
    }

    method HandleSort(key: string)
      requires Valid()
      modifies this
      ensures Valid() && sortConfig == NextSort(old(sortConfig), key)
      ensures Pages() == old(Pages()) && (old(PageInRange()) ==> PageInRange())
      ensures searchQuery == old(searchQuery) && currentPage == old(currentPage)
      ensures tableData == old(tableData)
      ensures selectedRows == old(selectedRows) && visibleColumns == old(visibleColumns)
    {
      ghost var before := |Processed()|;
      SortKeepsLength(data, tableData, sortConfig, NextSort(sortConfig, key), searchQuery);
      sortConfig := NextSort(sortConfig, key);
      assert |Processed()| == before;
    }

    method HandleSelectAll()
      requires Valid()
      modifies this
      ensures Valid() && selectedRows == SelectAll(old(selectedRows), |PaginatedData()|)
      ensures searchQuery == old(searchQuery) && sortConfig == old(sortConfig)
      ensures currentPage == old(currentPage) && tableData == old(tableData)
      ensures visibleColumns == old(visibleColumns)
    {
      selectedRows := SelectAll(selectedRows, |PaginatedData()|);
    }

    method HandleSelectRow(index: int)
      requires Valid()
      modifies this
      ensures Valid() && selectedRows == Toggle(old(selectedRows), index)
      ensures searchQuery == old(searchQuery) && sortConfig == old(sortConfig)
      ensures currentPage == old(currentPage) && tableData == old(tableData)
      ensures visibleColumns == old(visibleColumns)
    {
      selectedRows := Toggle(selectedRows, index);
    }

    method ToggleColumnVisibility(key: string)
      requires Valid()
      modifies this
      ensures Valid() && visibleColumns == Toggle(old(visibleColumns), key)
      ensures searchQuery == old(searchQuery) && sortConfig == old(sortConfig)
      ensures currentPage == old(currentPage) && tableData == old(tableData)
      ensures selectedRows == old(selectedRows)
    {
      visibleColumns := Toggle(visibleColumns, key);
    }

    method Previous()
      requires Valid()
      modifies this
      ensures Valid() && currentPage == PrevPage(old(currentPage))
      ensures old(PageInRange()) ==> PageInRange()
      ensures searchQuery == old(searchQuery) && sortConfig == old(sortConfig)
      ensures tableData == old(tableData)
      ensures selectedRows == old(selectedRows) && visibleColumns == old(visibleColumns)
    {
      currentPage := PrevPage(currentPage);
      PageButtonsInRange(old(currentPage), Pages());
    }

    method Next()
      requires Valid()
      modifies this
      ensures Valid() && currentPage == NextPage(old(currentPage), Pages())
      ensures old(PageInRange()) ==> PageInRange()
      ensures searchQuery == old(searchQuery) && sortConfig == old(sortConfig)
      ensures tableData == old(tableData)
      ensures selectedRows == old(selectedRows) && visibleColumns == old(visibleColumns)
    {
      currentPage := NextPage(currentPage, Pages());
      PageButtonsInRange(old(currentPage), Pages());
    }
  }

  /** A new sort configuration does not change how many rows are processed. */
  lemma SortKeepsLength(data: seq<Row>, tableData: seq<Row>, c1: SortConfig, c2: SortConfig, query: string)
    ensures |ProcessedData(false, data, tableData, c1, query)| == |ProcessedData(false, data, tableData, c2, query)|
  {
    ProcessedCount(data, tableData, c1, query);
    ProcessedCount(data, tableData, c2, query);
  }

  /** The number of processed rows depends on the data and the query only. */
  lemma ProcessedCount(data: seq<Row>, tableData: seq<Row>, config: SortConfig, query: string)
    ensures |ProcessedData(false, data, tableData, config, query)| ==
      |(if query != "" then FilterRows(data, query) else data)|
  {
    if SortActive(config) {
      var sorted := Sort(data, config.key, config.direction);
      SortPermutes(data, config.key, config.direction);
      if query != "" {
        FilterCountPermutation(sorted, data, query);
      } else {
        assert |sorted| == |multiset(sorted)| == |multiset(data)| == |data|;
      }
    }
  }

  /** Filtering two permutations of each other keeps as many rows. */
  lemma FilterCountPermutation(a: seq<Row>, b: seq<Row>, query: string)
    requires multiset(a) == multiset(b)
    ensures |FilterRows(a, query)| == |FilterRows(b, query)|
  {
    var fa, fb := FilterRows(a, query), FilterRows(b, query);
    FilterMultiset(a, query);
    FilterMultiset(b, query);
    assert forall r :: multiset(fa)[r] == multiset(fb)[r];
    assert multiset(fa) == multiset(fb);
    assert |fa| == |multiset(fa)|;
    assert |fb| == |multiset(fb)|;
  }

  /** The filter keeps every copy of a matching row and no copy of another. */
  lemma {:induction false} FilterMultiset(s: seq<Row>, query: string)
    ensures forall r :: multiset(FilterRows(s, query))[r] == if Matches(r, query) then multiset(s)[r] else 0
    decreases |s|
  {
    if s != [] {
      FilterMultiset(s[1..], query);
      assert s == [s[0]] + s[1..];
    }
  }
}
