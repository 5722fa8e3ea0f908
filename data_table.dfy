/**
 * `DataTable` (src/components/ui/DataTable.tsx): the view pipeline
 * rows → search filter → copy-and-sort → page window, its page arithmetic,
 * the view state the table keeps, and what it renders.
 */
module DataTable {
  import opened Base
  import opened Text
  import opened Seqs
  import opened Arith

  /** A property value of a row, as far as the table inspects it. */
  datatype Value = Null | Undefined | Num(n: int) | Str(s: string) | Bool(b: bool)

  /** A row: its properties by name. */
  type Row = map<string, Value>

  datatype Direction = Asc | Desc

  /** `String(value)` for the values that are not null or undefined. */
  function Stringify(v: Value): string
    requires !v.Null? && !v.Undefined?
  {
    match v
    case Num(n) => IntToString(n)
    case Str(s) => s
    case Bool(b) => if b then "true" else "false"
  }

  /** Some property, neither null nor undefined, spells `needle` once lower-cased. */
  predicate RowMatches(row: Row, needle: string) {
    exists k :: k in row && !row[k].Null? && !row[k].Undefined? && Contains(Lower(Stringify(row[k])), needle)
  }

  /**
   * `filteredData`: no rows without data; all of them for a blank term;
   * otherwise the rows matching the lower-cased, untrimmed term.
   */
  function FilteredData(data: Option<seq<Row>>, searchTerm: string): (r: seq<Row>)
    ensures data.None? ==> r == []
    ensures data.Some? && Blank(searchTerm) ==> r == data.value
    ensures data.Some? ==> IsSubseq(r, data.value)
    ensures !Blank(searchTerm) ==> forall i :: 0 <= i < |r| ==> RowMatches(r[i], Lower(searchTerm))
  {
    match data
    case None => []
    case Some(rows) =>
      if Blank(searchTerm) then
        assert IsSubseq(rows, rows) by { FilterAll(rows, (row: Row) => true); FilterIsSubseq(rows, (row: Row) => true); }
        rows
      else
        var needle := Lower(searchTerm);
        FilterIsSubseq(rows, (row: Row) => RowMatches(row, needle));
        Filter(rows, (row: Row) => RowMatches(row, needle))
  }

  /** With a non-blank term, a row is kept exactly when it is in the data and matches. */
  lemma FilteredDataMembers(rows: seq<Row>, searchTerm: string, row: Row)
    requires !Blank(searchTerm)
    ensures row in FilteredData(Some(rows), searchTerm) <==> row in rows && RowMatches(row, Lower(searchTerm))
  {
    FilterMembers(rows, (row: Row) => RowMatches(row, Lower(searchTerm)), row);
  }

  /** With a non-blank term, every copy of a matching row is kept and no copy of another. */
  lemma FilteredDataCount(rows: seq<Row>, searchTerm: string, row: Row)
    requires !Blank(searchTerm)
    ensures multiset(FilteredData(Some(rows), searchTerm))[row] ==
              if RowMatches(row, Lower(searchTerm)) then multiset(rows)[row] else 0
  {
    FilterCount(rows, (row: Row) => RowMatches(row, Lower(searchTerm)), row);
  }

  /** `row[key]`: an absent property reads as undefined. */
  function Get(row: Row, key: string): Value {
    if key in row then row[key] else Undefined
  }

  /** Code-point lexicographic order, the total order standing in for `localeCompare`. */
  predicate StrLe(a: string, b: string)
    decreases |a|
  {
    if a == [] then true
    else if b == [] then false
    else if a[0] != b[0] then a[0] < b[0]
    else StrLe(a[1..], b[1..])
  }

  lemma {:induction false} StrLeTotal(a: string, b: string)
    ensures StrLe(a, b) || StrLe(b, a)
    decreases |a|
  {
    if a != [] && b != [] && a[0] == b[0] {
      StrLeTotal(a[1..], b[1..]);
    }
  }

  lemma {:induction false} StrLeTrans(a: string, b: string, c: string)
    requires StrLe(a, b) && StrLe(b, c)
    ensures StrLe(a, c)
    decreases |a|
  {
    if a != [] && b != [] && c != [] && a[0] == b[0] && b[0] == c[0] {
      StrLeTrans(a[1..], b[1..], c[1..]);
    }
  }

  /** Kinds of value in the order mixed columns are placed (JavaScript coercion is not modelled). */
  function KindRank(v: Value): nat {
    match v
    case Null => 0
    case Undefined => 1
    case Bool(_) => 2
    case Num(_) => 3
    case Str(_) => 4
  }

  /**
   * The ascending comparison of two cell values: numbers by value, strings
   * by `StrLe`, booleans false before true, different kinds by `KindRank`.
   */
  predicate ValueLe(a: Value, b: Value) {
    if KindRank(a) != KindRank(b) then KindRank(a) < KindRank(b)
    else match (a, b)
      case (Num(x), Num(y)) => x <= y
      case (Str(x), Str(y)) => StrLe(x, y)
      case (Bool(x), Bool(y)) => !x || y
      case _ => true
  }

  lemma ValueLeTotal(a: Value, b: Value)
    ensures ValueLe(a, b) || ValueLe(b, a)
  {
    if a.Str? && b.Str? {
      StrLeTotal(a.s, b.s);
    }
  }

  lemma ValueLeTrans(a: Value, b: Value, c: Value)
    requires ValueLe(a, b) && ValueLe(b, c)
    ensures ValueLe(a, c)
  {
    if a.Str? && b.Str? && c.Str? {
      StrLeTrans(a.s, b.s, c.s);
    }
  }

  /** The comparator `sortedData` passes to `sort`: "may `a` precede `b`" at `key` in `dir`. */
  function RowLe(key: string, dir: Direction): (Row, Row) -> bool {
    (a: Row, b: Row) =>
      if dir == Asc then ValueLe(Get(a, key), Get(b, key)) else ValueLe(Get(b, key), Get(a, key))
  }

  /** Both directions of the comparator are total preorders, so the sort is well defined. */
  lemma {:induction false} RowLeTotalPreorder(key: string, dir: Direction)
    ensures TotalPreorder(RowLe(key, dir))
  {
    var le := RowLe(key, dir);
    forall a: Row, b: Row ensures le(a, b) || le(b, a) {
      ValueLeTotal(Get(a, key), Get(b, key));
    }
    forall a: Row, b: Row, c: Row | le(a, b) && le(b, c) ensures le(a, c) {
      if dir == Asc {
        ValueLeTrans(Get(a, key), Get(b, key), Get(c, key));
      } else {
        ValueLeTrans(Get(c, key), Get(b, key), Get(a, key));
      }
    }
  }

  /**
   * `sortedData`: without a sort key (null, or the falsy empty key) the
   * filtered rows as they are, otherwise a stable sort of a copy by the key's
   * values in the chosen direction.
   */
  function SortedData(filtered: seq<Row>, sortKey: Option<string>, dir: Direction): (r: seq<Row>)
    ensures sortKey.None? || sortKey == Some("") ==> r == filtered
    ensures multiset(r) == multiset(filtered)
    ensures |r| == |filtered|
  {
    match sortKey
    case None => filtered
    case Some(key) =>
      if key == "" then filtered
      else
        var r := InsertionSort(filtered, RowLe(key, dir));
        assert |r| == |multiset(r)| == |multiset(filtered)| == |filtered|;
        r
  }

  /** A sorted result is in order at the key: nondecreasing for `Asc`, nonincreasing for `Desc`. */
  lemma {:induction false} SortedDataOrdered(filtered: seq<Row>, key: string, dir: Direction, i: nat, j: nat)
    requires key != ""
    requires i < j < |SortedData(filtered, Some(key), dir)|
    ensures var r := SortedData(filtered, Some(key), dir);
            if dir == Asc then ValueLe(Get(r[i], key), Get(r[j], key))
            else ValueLe(Get(r[j], key), Get(r[i], key))
  {
    RowLeTotalPreorder(key, dir);
    InsertionSortSorted(filtered, RowLe(key, dir));
  }

  /** On a column of numbers, ascending order is `<=` and descending order is `>=`. */
  lemma {:induction false} NumericColumnOrdered(filtered: seq<Row>, key: string, dir: Direction, i: nat, j: nat)
    requires key != "" && forall k :: 0 <= k < |filtered| ==> Get(filtered[k], key).Num?
    requires i < j < |SortedData(filtered, Some(key), dir)|
    ensures var r := SortedData(filtered, Some(key), dir);
            Get(r[i], key).Num? && Get(r[j], key).Num? &&
            if dir == Asc then Get(r[i], key).n <= Get(r[j], key).n
            else Get(r[i], key).n >= Get(r[j], key).n
  {
    var r := SortedData(filtered, Some(key), dir);
    SortedDataOrdered(filtered, key, dir, i, j);
    KeptKind(filtered, r, key, i);
    KeptKind(filtered, r, key, j);
  }

  /** An element of a permutation is an element of the original. */
  lemma KeptKind(filtered: seq<Row>, r: seq<Row>, key: string, i: nat)
    requires multiset(r) == multiset(filtered)
    requires forall k :: 0 <= k < |filtered| ==> Get(filtered[k], key).Num?
    requires i < |r|
    ensures Get(r[i], key).Num?
  {
    assert r[i] in multiset(filtered);
  }

  /** Sorting the sorted rows again changes nothing. */
  lemma SortedDataIdempotent(filtered: seq<Row>, sortKey: Option<string>, dir: Direction)
    ensures SortedData(SortedData(filtered, sortKey, dir), sortKey, dir) == SortedData(filtered, sortKey, dir)
  {
    if sortKey.Some? && sortKey.value != "" {
      RowLeTotalPreorder(sortKey.value, dir);
      InsertionSortIdempotent(filtered, RowLe(sortKey.value, dir));
    }
  }

  /** `Math.ceil(n / itemsPerPage)`: 0 when there are no rows. */
  function TotalPages(n: nat, itemsPerPage: nat): (r: nat)
    requires itemsPerPage >= 1
    ensures r == 0 <==> n == 0
    ensures r > 0 ==> (r - 1) * itemsPerPage < n <= r * itemsPerPage
  {
    var r := (n + itemsPerPage - 1) / itemsPerPage;
    assert r * itemsPerPage <= n + itemsPerPage - 1 < r * itemsPerPage + itemsPerPage;
    r
  }

  /** One full page off the front leaves one page fewer. */
  lemma TotalPagesStep(n: nat, itemsPerPage: nat)
    requires itemsPerPage >= 1 && n > itemsPerPage
    ensures TotalPages(n, itemsPerPage) == TotalPages(n - itemsPerPage, itemsPerPage) + 1
  {
    var r := TotalPages(n, itemsPerPage);
    var q := TotalPages(n - itemsPerPage, itemsPerPage);
    assert (q + 1) * itemsPerPage == q * itemsPerPage + itemsPerPage;
    assert (q - 1) * itemsPerPage + itemsPerPage == q * itemsPerPage;
    MulCancelLess(r - 1, q + 1, itemsPerPage);
    MulCancelLess(q, r, itemsPerPage);
  }

  /** `sortedData.slice(start, start + itemsPerPage)` with `start = (page - 1) * itemsPerPage`. */
  function PageSlice<T>(s: seq<T>, page: nat, itemsPerPage: nat): (r: seq<T>)
    requires page >= 1 && itemsPerPage >= 1
    ensures |r| <= itemsPerPage
  {
    var start := (page - 1) * itemsPerPage;
    if start >= |s| then []
    else if start + itemsPerPage >= |s| then s[start..]
    else s[start..start + itemsPerPage]
  }

  /** `paginatedData`: the page window, or every row when pagination is off. */
  function PaginatedData<T>(sorted: seq<T>, pagination: bool, page: nat, itemsPerPage: nat): (r: seq<T>)
    requires page >= 1 && itemsPerPage >= 1
    ensures !pagination ==> r == sorted
    ensures pagination ==> |r| <= itemsPerPage
  {
    if pagination then PageSlice(sorted, page, itemsPerPage) else sorted
  }

  /** Reference definition of the pages: consecutive windows of `itemsPerPage` rows. */
  function AllPages<T>(s: seq<T>, itemsPerPage: nat): seq<seq<T>>
    requires itemsPerPage >= 1
    decreases |s|
  {
    if |s| == 0 then []
    else if |s| <= itemsPerPage then [s]
    else [s[..itemsPerPage]] + AllPages(s[itemsPerPage..], itemsPerPage)
  }

  function Flatten<T>(pages: seq<seq<T>>): seq<T> {
    if pages == [] then [] else pages[0] + Flatten(pages[1..])
  }

  /** There are `TotalPages` pages and they concatenate back to the rows, in order. */
  lemma AllPagesCover<T>(s: seq<T>, itemsPerPage: nat)
    requires itemsPerPage >= 1
    ensures |AllPages(s, itemsPerPage)| == TotalPages(|s|, itemsPerPage)
    ensures Flatten(AllPages(s, itemsPerPage)) == s
  {
    AllPagesLength(s, itemsPerPage);
    AllPagesFlatten(s, itemsPerPage);
  }

  lemma {:induction false} AllPagesLength<T>(s: seq<T>, itemsPerPage: nat)
    requires itemsPerPage >= 1
    ensures |AllPages(s, itemsPerPage)| == TotalPages(|s|, itemsPerPage)
    decreases |s|
  {
    if |s| > itemsPerPage {
      var rest := s[itemsPerPage..];
      AllPagesLength(rest, itemsPerPage);
      TotalPagesStep(|s|, itemsPerPage);
      assert AllPages(s, itemsPerPage) == [s[..itemsPerPage]] + AllPages(rest, itemsPerPage);
    } else if |s| > 0 {
      TotalPagesOne(|s|, itemsPerPage);
    }
  }

  /** Rows that fit on one page make one page. */
  lemma TotalPagesOne(n: nat, itemsPerPage: nat)
    requires 0 < n <= itemsPerPage
    ensures TotalPages(n, itemsPerPage) == 1
  {
    var r := TotalPages(n, itemsPerPage);
    assert 1 * itemsPerPage == itemsPerPage;
    MulCancelLess(r - 1, 1, itemsPerPage);
  }

  lemma {:induction false} AllPagesFlatten<T>(s: seq<T>, itemsPerPage: nat)
    requires itemsPerPage >= 1
    ensures Flatten(AllPages(s, itemsPerPage)) == s
    decreases |s|
  {
    if |s| == 0 {
    } else if |s| <= itemsPerPage {
      FlattenCons(s, []);
      assert [s] + [] == [s];
    } else {
      var first, rest := s[..itemsPerPage], s[itemsPerPage..];
      AllPagesFlatten(rest, itemsPerPage);
      assert AllPages(s, itemsPerPage) == [first] + AllPages(rest, itemsPerPage);
      FlattenCons(first, AllPages(rest, itemsPerPage));
      assert s == first + rest;
    }
  }

  lemma FlattenCons<T>(page: seq<T>, pages: seq<seq<T>>)
    ensures Flatten([page] + pages) == page + Flatten(pages)
  {
    assert ([page] + pages)[0] == page && ([page] + pages)[1..] == pages;
  }

  /** Page `p` of the table, for `1 <= p <= TotalPages`, is the `p`-th of those pages. */
  lemma {:induction false} PageSliceIsPage<T>(s: seq<T>, page: nat, itemsPerPage: nat)
    requires itemsPerPage >= 1 && 1 <= page <= TotalPages(|s|, itemsPerPage)
    ensures AllPagesCount(s, itemsPerPage) && PageSlice(s, page, itemsPerPage) == AllPages(s, itemsPerPage)[page - 1]
    decreases |s|
  {
    AllPagesCover(s, itemsPerPage);
    if page == 1 {
      assert |s| > 0;
    } else {
      var rest := s[itemsPerPage..];
      TotalPagesStep(|s|, itemsPerPage);
      PageSliceIsPage(rest, page - 1, itemsPerPage);
      PageSliceShift(s, page, itemsPerPage);
      assert AllPages(s, itemsPerPage)[page - 1] == AllPages(rest, itemsPerPage)[page - 2];
    }
  }

  /** Past the first page, a window of the rows is the previous window of the rows after page 1. */
  lemma PageSliceShift<T>(s: seq<T>, page: nat, itemsPerPage: nat)
    requires itemsPerPage >= 1 && page >= 2 && |s| > itemsPerPage
    ensures PageSlice(s, page, itemsPerPage) == PageSlice(s[itemsPerPage..], page - 1, itemsPerPage)
  {
    var rest := s[itemsPerPage..];
    var k := (page - 2) * itemsPerPage;
    MulSucc(page - 2, itemsPerPage);
    PageSliceFrom(s, page, itemsPerPage, k + itemsPerPage);
    PageSliceFrom(rest, page - 1, itemsPerPage, k);
    if k + itemsPerPage < |s| {
      if k + 2 * itemsPerPage >= |s| {
        assert s[k + itemsPerPage..] == rest[k..];
      } else {
        assert s[k + itemsPerPage..k + 2 * itemsPerPage] == rest[k..k + itemsPerPage];
      }
    }
  }

  lemma MulSucc(a: nat, b: nat)
    ensures (a + 1) * b == a * b + b
  {
  }

  /** The window of a page, given where it starts. */
  lemma PageSliceFrom<T>(s: seq<T>, page: nat, itemsPerPage: nat, start: nat)
    requires page >= 1 && itemsPerPage >= 1 && start == (page - 1) * itemsPerPage
    ensures start >= |s| ==> PageSlice(s, page, itemsPerPage) == []
    ensures start < |s| <= start + itemsPerPage ==> PageSlice(s, page, itemsPerPage) == s[start..]
    ensures start + itemsPerPage < |s| ==> PageSlice(s, page, itemsPerPage) == s[start..start + itemsPerPage]
  {
  }

  /** `AllPages` has exactly `TotalPages` entries (stated separately so index bounds read plainly). */
  predicate AllPagesCount<T>(s: seq<T>, itemsPerPage: nat)
    requires itemsPerPage >= 1
  {
    |AllPages(s, itemsPerPage)| == TotalPages(|s|, itemsPerPage)
  }

  /** Past the last page there are no rows. */
  lemma PageSliceBeyondEnd<T>(s: seq<T>, page: nat, itemsPerPage: nat)
    requires itemsPerPage >= 1 && page > TotalPages(|s|, itemsPerPage)
    ensures PageSlice(s, page, itemsPerPage) == []
  {
    var t := TotalPages(|s|, itemsPerPage);
    assert (page - 1) * itemsPerPage >= t * itemsPerPage;
  }

  /**
   * The "Showing {from} to {to} of {n} entries" label: on a page that exists,
   * the window holds rows `from` to `to` (1-based, inclusive), and there is at least one.
   */
  lemma ShowingLabel<T>(s: seq<T>, page: nat, itemsPerPage: nat)
    requires itemsPerPage >= 1 && 1 <= page <= TotalPages(|s|, itemsPerPage)
    ensures var from := (page - 1) * itemsPerPage + 1;
            var to := if page * itemsPerPage < |s| then page * itemsPerPage else |s|;
            1 <= from <= to <= |s| && PageSlice(s, page, itemsPerPage) == s[from - 1..to]
  {
    var t := TotalPages(|s|, itemsPerPage);
    assert (page - 1) * itemsPerPage <= (t - 1) * itemsPerPage;
    assert page * itemsPerPage == (page - 1) * itemsPerPage + itemsPerPage;
  }

  /** The pager (and its "Showing" label) is rendered only with pagination on and more than one page. */
  predicate PagerShown(pagination: bool, totalPages: nat) {
    pagination && totalPages > 1
  }

  /** The Previous button: one page back, never before page 1. */
  function PrevPage(page: int): (r: int)
    ensures r >= 1 && r <= if page > 1 then page else 1
    ensures page > 1 ==> r == page - 1
  {
    if page - 1 > 1 then page - 1 else 1
  }

  /** The Next button: one page on, never past the last page. */
  function NextPage(page: int, totalPages: nat): (r: int)
    ensures r <= totalPages
    ensures page < totalPages ==> r == page + 1
    ensures page >= totalPages ==> r == totalPages
  {
    if page + 1 < totalPages then page + 1 else totalPages
  }

  /** `handleSort(key)`: the same key flips the direction; another key sorts by it ascending. */
  function HandleSort(sortKey: Option<string>, dir: Direction, key: string): (r: (Option<string>, Direction))
    ensures r.0 == Some(key)
    ensures sortKey == Some(key) ==> r.1 != dir
    ensures sortKey != Some(key) ==> r.1 == Asc
  {
    if sortKey == Some(key) then (sortKey, if dir == Asc then Desc else Asc)
    else (Some(key), Asc)
  }

  /** Two clicks on the same header give back the state after the first click's predecessor. */
  lemma HandleSortTwice(key: string, dir: Direction)
    ensures var r := HandleSort(Some(key), dir, key);
            HandleSort(r.0, r.1, key) == (Some(key), dir)
  {
  }

  /** What the component renders, in precedence order. */
  datatype View =
    | LoadingSkeleton
    | Failed(message: string)
    | NoDataRow
    | Rows(rows: seq<Row>)

  /**
   * Loading wins over an error, an error over the table; the error card shows the
   * error's message (an `Error` object is always truthy, so only its presence is
   * tested); an empty page shows one "No data available" row.
   */
  function Render(isLoading: bool, error: Option<string>, page: seq<Row>): (v: View)
    ensures isLoading <==> v.LoadingSkeleton?
    ensures v.Failed? <==> !isLoading && error.Some?
    ensures v.Failed? ==> v.message == error.value
    ensures v.NoDataRow? <==> !isLoading && error.None? && page == []
    ensures v.Rows? ==> v.rows == page && page != []
  {
    if isLoading then LoadingSkeleton
    else if error.Some? then Failed(error.value)
    else if page == [] then NoDataRow
    else Rows(page)
  }

  /** JavaScript falsiness of a cell value. */
  predicate Falsy(v: Value) {
    v.Null? || v.Undefined? || v == Num(0) || v == Str("") || v == Bool(false)
  }

  /** `String(value || '')`: falsy values, 0 and false included, show as empty text. */
  function CellText(v: Value): (r: string)
    ensures r == "" <==> Falsy(v)
    ensures !Falsy(v) ==> r == Stringify(v)
  {
    if Falsy(v) then "" else Stringify(v)
  }

  /**
   * The table's state. `data` stands for the `data` prop and `pagination`
   * for the `pagination` prop; the rest is component state.
   */
  class TableView {
    var data: Option<seq<Row>>
    var pagination: bool
    var searchTerm: string
    var sortKey: Option<string>
    var sortDirection: Direction
    var currentPage: int
    var itemsPerPage: int

    /** The rows after filtering and sorting. */
    function Sorted(): seq<Row>
      reads this
    {
      SortedData(FilteredData(data, searchTerm), sortKey, sortDirection)
    }

    /** At least one row per page, and the current page is page 1 or a page that exists. */
    predicate Valid()
      reads this
    {
      itemsPerPage >= 1 && 1 <= currentPage &&
      (currentPage == 1 || currentPage <= TotalPages(|Sorted()|, itemsPerPage))
    }

    /** The rows on screen. */
    function Page(): (r: seq<Row>)
      reads this
      requires Valid()
      ensures pagination ==> |r| <= itemsPerPage
      ensures !pagination ==> r == Sorted()
    {
      PaginatedData(Sorted(), pagination, currentPage, itemsPerPage)
    }

    /** The initial state: page 1, no sort (ascending preset), empty search. */
    constructor (data: Option<seq<Row>>, pagination: bool, initialItemsPerPage: int)
      requires initialItemsPerPage >= 1
      ensures Valid()
      ensures this.data == data && this.pagination == pagination && itemsPerPage == initialItemsPerPage
      ensures currentPage == 1 && sortKey == None && sortDirection == Asc && searchTerm == ""
    {
      this.data := data;
      this.pagination := pagination;
      searchTerm := "";
      sortKey := None;
      sortDirection := Asc;
      currentPage := 1;
      itemsPerPage := initialItemsPerPage;
    }

    /** New `data` prop; the reset effect sends the view back to page 1 when it differs. */
    method SetData(d: Option<seq<Row>>)
      requires Valid()
      modifies this
      ensures Valid()
      ensures data == d && currentPage == (if d != old(data) then 1 else old(currentPage))
      ensures searchTerm == old(searchTerm) && sortKey == old(sortKey) && sortDirection == old(sortDirection)
      ensures itemsPerPage == old(itemsPerPage) && pagination == old(pagination)
    {
      if d != data {
        data := d;
        currentPage := 1;
      }
    }

    /** Typing in the search box (or clearing it with the X button, `t = ""`). */
    method SetSearchTerm(t: string)
      requires Valid()
      modifies this
      ensures Valid()
      ensures searchTerm == t && currentPage == (if t != old(searchTerm) then 1 else old(currentPage))
      ensures data == old(data) && sortKey == old(sortKey) && sortDirection == old(sortDirection)
      ensures itemsPerPage == old(itemsPerPage) && pagination == old(pagination)
    {
      if t != searchTerm {
        searchTerm := t;
        currentPage := 1;
      }
    }

    /** A click on a sortable header: `handleSort`, then the reset effect. */
    method Sort(key: string)
      requires Valid()
      modifies this
      ensures Valid()
      ensures (sortKey, sortDirection) == HandleSort(old(sortKey), old(sortDirection), key)
      ensures currentPage == 1
      ensures data == old(data) && searchTerm == old(searchTerm)
      ensures itemsPerPage == old(itemsPerPage) && pagination == old(pagination)
    {
      var next := HandleSort(sortKey, sortDirection, key);
      sortKey := next.0;
      sortDirection := next.1;
      currentPage := 1;
    }

    /** The Previous button of the pager. */
    method Prev()
      requires Valid() && PagerShown(pagination, TotalPages(|Sorted()|, itemsPerPage))
      modifies this
      ensures Valid()
      ensures currentPage == PrevPage(old(currentPage))
      ensures data == old(data) && searchTerm == old(searchTerm) && sortKey == old(sortKey)
      ensures sortDirection == old(sortDirection) && itemsPerPage == old(itemsPerPage) && pagination == old(pagination)
    {
      currentPage := PrevPage(currentPage);
    }

    /** The Next button of the pager. */
    method Next()
      requires Valid() && PagerShown(pagination, TotalPages(|Sorted()|, itemsPerPage))
      modifies this
      ensures Valid()
      ensures currentPage == NextPage(old(currentPage), TotalPages(|Sorted()|, itemsPerPage))
      ensures data == old(data) && searchTerm == old(searchTerm) && sortKey == old(sortKey)
      ensures sortDirection == old(sortDirection) && itemsPerPage == old(itemsPerPage) && pagination == old(pagination)
    {
      currentPage := NextPage(currentPage, TotalPages(|Sorted()|, itemsPerPage));
    }
  }
}
