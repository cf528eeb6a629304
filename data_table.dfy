/**
 * The client-side table engine: case-insensitive substring search over the
 * chosen fields, slice-based pagination and the page cursor that the search
 * box and the previous/next buttons move.
 */
module DataTable {
  import opened JsText

  /** A row as the search sees it: each field's `String(row[field])`. */
  type Row = map<string, string>

  /** `String(row[field])`; a field the row lacks reads as "undefined". */
  function FieldText(row: Row, field: string): string {
    if field in row then row[field] else "undefined"
  }

  /** `searchableFields.some(field => String(row[field]).toLowerCase().includes(query.toLowerCase()))`. */
  predicate RowMatches(row: Row, fields: seq<string>, query: string) {
    exists k :: 0 <= k < |fields| && Includes(ToLower(FieldText(row, fields[k])), ToLower(query))
  }

  /** `data.filter(row => RowMatches(row, ...))`: the matching rows, in input order. */
  function FilterRows(data: seq<Row>, fields: seq<string>, query: string): (r: seq<Row>)
    ensures |r| <= |data|
    ensures forall k :: 0 <= k < |r| ==> r[k] in data && RowMatches(r[k], fields, query)
  {
    if data == [] then []
    else if RowMatches(data[0], fields, query) then [data[0]] + FilterRows(data[1..], fields, query)
    else FilterRows(data[1..], fields, query)
  }

  /** `filteredData`: every row for an empty query, else the matching rows. */
  function FilteredData(data: seq<Row>, fields: seq<string>, query: string): (r: seq<Row>)
    ensures query == "" ==> r == data
    ensures query != "" ==> forall k :: 0 <= k < |r| ==> r[k] in data && RowMatches(r[k], fields, query)
  {
    if query == "" then data else FilterRows(data, fields, query)
  }

  /** Filtering a concatenation filters each part in turn, so the input order is kept. */
  lemma {:induction false} FilterAppend(a: seq<Row>, b: seq<Row>, fields: seq<string>, query: string)
    ensures FilterRows(a + b, fields, query) == FilterRows(a, fields, query) + FilterRows(b, fields, query)
  {
    if a != [] {
      assert (a + b)[0] == a[0];
      assert (a + b)[1..] == a[1..] + b;
      FilterAppend(a[1..], b, fields, query);
      if RowMatches(a[0], fields, query) {
        assert FilterRows(a + b, fields, query) == [a[0]] + FilterRows(a[1..] + b, fields, query);
      } else {
        assert FilterRows(a + b, fields, query) == FilterRows(a[1..] + b, fields, query);
      }
    } else {
      assert a + b == b;
    }
  }

  /** Every matching row of the input survives the filter. */
  lemma {:induction false} FilterKeepsMatches(data: seq<Row>, fields: seq<string>, query: string, i: nat)
    requires i < |data| && RowMatches(data[i], fields, query)
    ensures data[i] in FilterRows(data, fields, query)
  {
    if i > 0 {
      FilterKeepsMatches(data[1..], fields, query, i - 1);
    }
  }

  /** A row is shown for a non-empty query exactly when it is an input row that matches. */
  lemma FilteredIff(data: seq<Row>, fields: seq<string>, query: string, row: Row)
    requires query != ""
    ensures row in FilteredData(data, fields, query) <==> row in data && RowMatches(row, fields, query)
  {
    if row in data && RowMatches(row, fields, query) {
      var i :| 0 <= i < |data| && data[i] == row;
      FilterKeepsMatches(data, fields, query, i);
    }
  }

  /** With a non-empty query and no searchable fields, nothing is shown. */
  lemma {:induction false} NoFieldsNoRows(data: seq<Row>, query: string)
    requires query != ""
    ensures FilteredData(data, [], query) == []
  {
    if data != [] {
      NoFieldsNoRows(data[1..], query);
    }
  }

  /** `s.slice(start, end)`: negative bounds count from the end, and both are clamped into the sequence. */
  function Slice<T>(s: seq<T>, start: int, end: int): (r: seq<T>)
    ensures 0 <= start <= end <= |s| ==> r == s[start..end]
    ensures 0 <= start && |s| <= end ==> r == s[if start < |s| then start else |s|..]
  {
    var from := if start < 0 then (if |s| + start < 0 then 0 else |s| + start) else if start > |s| then |s| else start;
    var to := if end < 0 then (if |s| + end < 0 then 0 else |s| + end) else if end > |s| then |s| else end;
    if from < to then s[from..to] else []
  }

  /** `paginatedData`: the rows of page `page` (counted from 1). */
  function PageSlice<T>(rows: seq<T>, page: int, pageSize: int): seq<T> {
    var start := (page - 1) * pageSize;
    Slice(rows, start, start + pageSize)
  }

  /** `Math.ceil(length / pageSize)`. */
  function TotalPages(length: nat, pageSize: int): (t: nat)
    requires pageSize >= 1
  {
    (length + pageSize - 1) / pageSize
  }

  /** The page count is the least number of whole pages that hold every row. */
  lemma TotalPagesIsCeiling(length: nat, pageSize: int)
    requires pageSize >= 1
    ensures var t := TotalPages(length, pageSize);
      length <= t * pageSize && (t == 0 || (t - 1) * pageSize < length)
  {
    var t := TotalPages(length, pageSize);
    var r := (length + pageSize - 1) % pageSize;
    assert length + pageSize - 1 == t * pageSize + r;
    if t > 0 {
      assert (t - 1) * pageSize == t * pageSize - pageSize;
    }
  }

  /** The rows of page `page` (from 1) are the `pageSize` rows from `(page - 1) * pageSize`, or fewer at the end. */
  lemma PageSliceShape<T>(rows: seq<T>, page: int, pageSize: int)
    requires page >= 1 && pageSize >= 1
    ensures var start := (page - 1) * pageSize;
      var p := PageSlice(rows, page, pageSize);
      0 <= start && |p| <= pageSize
      && (start + pageSize <= |rows| ==> p == rows[start..start + pageSize])
      && (start <= |rows| <= start + pageSize ==> p == rows[start..])
      && (start >= |rows| ==> p == [])
  {
    var start := (page - 1) * pageSize;
    assert start >= 0 by {
      NonNegativeProduct(page - 1, pageSize);
    }
  }

  /** The first `count` pages laid end to end. */
  function Pages<T>(rows: seq<T>, pageSize: int, count: nat): seq<T>
    requires pageSize >= 1
  {
    if count == 0 then [] else Pages(rows, pageSize, count - 1) + PageSlice(rows, count, pageSize)
  }

  /** The first `count` pages hold exactly the first `count * pageSize` rows, in order. */
  lemma {:induction false} PagesArePrefix<T>(rows: seq<T>, pageSize: int, count: nat)
    requires pageSize >= 1
    ensures count * pageSize <= |rows| ==> Pages(rows, pageSize, count) == rows[..count * pageSize]
    ensures count * pageSize > |rows| ==> Pages(rows, pageSize, count) == rows
  {
    if count > 0 {
      var before := (count - 1) * pageSize;
      assert count * pageSize == before + pageSize;
      assert before >= 0 by {
        NonNegativeProduct(count - 1, pageSize);
      }
      PagesArePrefix(rows, pageSize, count - 1);
      PageSliceShape(rows, count, pageSize);
      if before + pageSize <= |rows| {
        assert rows[..before] + rows[before..before + pageSize] == rows[..before + pageSize];
      } else if before <= |rows| {
        assert rows[..before] + rows[before..] == rows;
      }
    }
  }

  /** Pages 1 to `TotalPages` laid end to end give back every row once, in order. */
  lemma PagesCoverRows<T>(rows: seq<T>, pageSize: int)
    requires pageSize >= 1
    ensures Pages(rows, pageSize, TotalPages(|rows|, pageSize)) == rows
  {
    var t := TotalPages(|rows|, pageSize);
    TotalPagesIsCeiling(|rows|, pageSize);
    PagesArePrefix(rows, pageSize, t);
    if t * pageSize <= |rows| {
      assert rows[..t * pageSize] == rows;
    }
  }

  /** The pager shows when `totalPages > 1`: exactly when the rows overflow one page. */
  lemma PagerVisibility(length: nat, pageSize: int)
    requires pageSize >= 1
    ensures TotalPages(length, pageSize) > 1 <==> length > pageSize
  {
    TotalPagesIsCeiling(length, pageSize);
    var t := TotalPages(length, pageSize);
    if t > 1 {
      assert (t - 1) * pageSize >= pageSize by {
        NonNegativeProduct(t - 2, pageSize);
        assert (t - 1) * pageSize == (t - 2) * pageSize + pageSize;
      }
    }
  }

  /** The span of the "no data" cell: one column per data column, plus one for the actions column. */
  function EmptyRowSpan(columns: nat, hasActions: bool): (span: nat)
    ensures hasActions ==> span == columns + 1
    ensures !hasActions ==> span == columns
  {
    columns + (if hasActions then 1 else 0)
  }

  /** The table's state: its props and the `currentPage` and `searchQuery` hooks. */
  class Table {
    var data: seq<Row>
    var searchableFields: seq<string>
    var pageSize: int
    var currentPage: int
    var searchQuery: string

    /** The mounted table: on page 1 with an empty query. */
    constructor (data: seq<Row>, searchableFields: seq<string>, pageSize: int)
      requires pageSize >= 1
      ensures this.data == data && this.searchableFields == searchableFields && this.pageSize == pageSize
      ensures currentPage == 1 && searchQuery == ""
      ensures Valid()
    {
      this.data := data;
      this.searchableFields := searchableFields;
      this.pageSize := pageSize;
      currentPage := 1;
      searchQuery := "";
    }

    predicate Valid()
      reads this
    {
      pageSize >= 1
    }

    function Filtered(): seq<Row>
      reads this
    {
      FilteredData(data, searchableFields, searchQuery)
    }

    function Paginated(): seq<Row>
      reads this
    {
      PageSlice(Filtered(), currentPage, pageSize)
    }

    function Total(): nat
      reads this
      requires Valid()
    {
      TotalPages(|Filtered()|, pageSize)
    }

    /** `handleSearch(value)`: store the query and go back to page 1. */
    method HandleSearch(value: string)
      requires Valid()
      modifies this
      ensures searchQuery == value && currentPage == 1
      ensures data == old(data) && searchableFields == old(searchableFields) && pageSize == old(pageSize)
      ensures Valid()
    {
      searchQuery := value;
      currentPage := 1;
    }

    /** The previous-page button: `Math.max(1, p - 1)`. */
    method PreviousPage()
      requires Valid()
      modifies this
      ensures currentPage == (if old(currentPage) - 1 < 1 then 1 else old(currentPage) - 1)
      ensures currentPage >= 1 && (old(currentPage) > 1 ==> currentPage < old(currentPage))
      ensures data == old(data) && searchableFields == old(searchableFields) && pageSize == old(pageSize)
      ensures searchQuery == old(searchQuery) && Valid()
    {
      currentPage := if currentPage - 1 < 1 then 1 else currentPage - 1;
    }

    /** The next-page button: `Math.min(totalPages, p + 1)`. */
    method NextPage()
      requires Valid()
      modifies this
      ensures Valid()
      ensures currentPage == (if Total() < old(currentPage) + 1 then Total() else old(currentPage) + 1)
      ensures currentPage <= Total()
      ensures Total() >= 1 && old(currentPage) >= 1 ==> currentPage >= 1
      ensures data == old(data) && searchableFields == old(searchableFields) && pageSize == old(pageSize)
      ensures searchQuery == old(searchQuery) && Valid()
    {
      var total := Total();
      currentPage := if total < currentPage + 1 then total else currentPage + 1;
    }
  }

  /** After a search the table shows the first page of the new filter. */
  lemma SearchShowsFirstPage(data: seq<Row>, fields: seq<string>, query: string, pageSize: int)
    requires pageSize >= 1
    ensures var f := FilteredData(data, fields, query);
      PageSlice(f, 1, pageSize) == f[..if pageSize < |f| then pageSize else |f|]
  {
    PageSliceShape(FilteredData(data, fields, query), 1, pageSize);
  }
}
