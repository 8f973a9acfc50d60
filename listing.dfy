/**
 * The list-screen machinery every component repeats: the query of a page
 * request, the page count, the five-page window of the pager, the paged list
 * state, the unpaged list of the reference screens and the add/edit form.
 */
module Listing {
  import opened Js

  /** `Math.ceil(total / size)` for a positive page size. */
  function CeilDiv(total: nat, size: int): (pages: nat)
    requires size >= 1
    ensures total <= pages * size
    ensures pages == 0 || (pages - 1) * size < total
    ensures pages == 0 <==> total == 0
  {
    CeilDivFacts(total, size);
    (total + size - 1) / size
  }

  lemma CeilDivFacts(total: nat, size: int)
    requires size >= 1
    ensures var q := (total + size - 1) / size;
      q >= 0 && total <= q * size && (q == 0 || (q - 1) * size < total) && (q == 0 <==> total == 0)
  {
    var q := (total + size - 1) / size;
    var r := (total + size - 1) % size;
    assert total + size - 1 == q * size + r && 0 <= r < size;
    assert q * size == total + size - 1 - r;
    assert (q - 1) * size == q * size - size;
  }

  // ---------------------------------------------------------------- the pager

  /** The pager shows at most this many page buttons. */
  const WindowSize: int := 5

  /** `[lo, lo + 1, …, hi]`, as `Array.from({length: hi - lo + 1}, (_, i) => lo + i)` builds it. */
  function Span(lo: int, hi: int): (r: seq<int>)
    ensures |r| == Max(0, hi - lo + 1)
    ensures forall i :: 0 <= i < |r| ==> r[i] == lo + i
  {
    seq(Max(0, hi - lo + 1), i => lo + i)
  }

  function WindowStart(current: int, totalPages: int): int {
    var start := Max(1, current - WindowSize / 2);
    var end := Min(totalPages, start + WindowSize - 1);
    if end - start + 1 < WindowSize then Max(1, end - WindowSize + 1) else start
  }

  function WindowEnd(current: int, totalPages: int): int {
    Min(totalPages, Max(1, current - WindowSize / 2) + WindowSize - 1)
  }

  /** The page buttons for `current` among `totalPages` pages. */
  function PageWindow(current: int, totalPages: int): seq<int> {
    Span(WindowStart(current, totalPages), WindowEnd(current, totalPages))
  }

  /**
   * The window holds min(5, totalPages) consecutive pages, all of them real
   * pages; it holds the current page whenever that page exists, and centres
   * it when there are two pages on either side.
   */
  lemma PageWindowShape(current: int, totalPages: int)
    requires totalPages >= 0
    ensures var w := PageWindow(current, totalPages);
      && |w| == Min(WindowSize, totalPages)
      && (forall i :: 0 <= i < |w| ==> 1 <= w[i] <= totalPages)
      && (forall i :: 0 < i < |w| ==> w[i] == w[i - 1] + 1)
      && (1 <= current <= totalPages ==> current in w)
      && (3 <= current <= totalPages - 2 ==> w[2] == current)
  {
    var w := PageWindow(current, totalPages);
    var lo, hi := WindowStart(current, totalPages), WindowEnd(current, totalPages);
    assert |w| == Max(0, hi - lo + 1);
    if 1 <= current <= totalPages {
      assert lo <= current <= hi;
      assert w[current - lo] == current;
    }
  }

  // ---------------------------------------------------------------- queries

  /** One optional filter of a list request: its query parameter and the bound search value. */
  datatype Filter = Filter(param: string, value: Value)

  /** HttpParams in the order they are set. */
  type Query = seq<(string, string)>

  /** The filters that are sent: those whose value is truthy, as `String(value)`. */
  function SentFilters(filters: seq<Filter>): Query {
    if filters == [] then []
    else
      (if Truthy(filters[0].value) then [(filters[0].param, ToString(filters[0].value))] else [])
      + SentFilters(filters[1..])
  }

  /** `page` and `limit` first, then every filter that has a value. */
  function PageQuery(page: int, limit: int, filters: seq<Filter>): Query {
    [("page", IntToString(page)), ("limit", IntToString(limit))] + SentFilters(filters)
  }

  predicate HasParam(q: Query, k: string) { exists i :: 0 <= i < |q| && q[i].0 == k }

  /** The value of the first parameter named `k`. */
  function ParamValue(q: Query, k: string): Option<string> {
    if q == [] then None else if q[0].0 == k then Some(q[0].1) else ParamValue(q[1..], k)
  }

  /** Filters with their parameter names pairwise distinct and distinct from `page` and `limit`. */
  predicate DistinctParams(filters: seq<Filter>) {
    (forall i, j :: 0 <= i < j < |filters| ==> filters[i].param != filters[j].param)
    && (forall i :: 0 <= i < |filters| ==> filters[i].param != "page" && filters[i].param != "limit")
  }

  lemma HasParamConcat(a: Query, b: Query, k: string)
    ensures HasParam(a + b, k) <==> HasParam(a, k) || HasParam(b, k)
  {
    if HasParam(a + b, k) {
      var j :| 0 <= j < |a + b| && (a + b)[j].0 == k;
      if j >= |a| {
        assert b[j - |a|] == (a + b)[j];
      }
    }
    if HasParam(a, k) {
      var j :| 0 <= j < |a| && a[j].0 == k;
      assert (a + b)[j] == a[j];
    }
    if HasParam(b, k) {
      var j :| 0 <= j < |b| && b[j].0 == k;
      assert (a + b)[j + |a|] == b[j];
    }
  }

  lemma {:induction false} ParamValueSkip(head: Query, rest: Query, k: string)
    requires !HasParam(head, k)
    ensures ParamValue(head + rest, k) == ParamValue(rest, k)
    decreases |head|
  {
    if head != [] {
      assert (head + rest)[0] == head[0];
      assert head[0].0 != k;
      assert (head + rest)[1..] == head[1..] + rest;
      assert !HasParam(head[1..], k) by {
        forall j | 0 <= j < |head[1..]| ensures head[1..][j].0 != k {
          assert head[1..][j] == head[j + 1];
        }
      }
      ParamValueSkip(head[1..], rest, k);
    } else {
      assert head + rest == rest;
    }
  }

  /** Filters whose parameter differs from `k` never send `k`. */
  lemma {:induction false} SentNames(filters: seq<Filter>, k: string)
    requires forall i :: 0 <= i < |filters| ==> filters[i].param != k
    ensures !HasParam(SentFilters(filters), k)
    decreases |filters|
  {
    if filters != [] {
      SentNames(filters[1..], k);
      var head := if Truthy(filters[0].value) then [(filters[0].param, ToString(filters[0].value))] else [];
      assert SentFilters(filters) == head + SentFilters(filters[1..]);
      HasParamConcat(head, SentFilters(filters[1..]), k);
    }
  }

  /**
   * A filter's parameter is sent exactly when its value is truthy, and then
   * with that value.
   */
  lemma {:induction false} SentFiltersExactly(filters: seq<Filter>, i: int)
    requires DistinctParams(filters) && 0 <= i < |filters|
    ensures HasParam(SentFilters(filters), filters[i].param) <==> Truthy(filters[i].value)
    ensures Truthy(filters[i].value) ==>
      ParamValue(SentFilters(filters), filters[i].param) == Some(ToString(filters[i].value))
    decreases |filters|
  {
    var k := filters[i].param;
    var head := if Truthy(filters[0].value) then [(filters[0].param, ToString(filters[0].value))] else [];
    var rest := SentFilters(filters[1..]);
    assert SentFilters(filters) == head + rest;
    HasParamConcat(head, rest, k);
    if i == 0 {
      SentNames(filters[1..], k);
      if Truthy(filters[0].value) {
        assert (head + rest)[0] == head[0];
      }
    } else {
      assert DistinctParams(filters[1..]) by {
        forall a, b | 0 <= a < b < |filters[1..]|
          ensures filters[1..][a].param != filters[1..][b].param
        {
          assert filters[1..][a] == filters[a + 1] && filters[1..][b] == filters[b + 1];
        }
      }
      SentFiltersExactly(filters[1..], i - 1);
      assert filters[1..][i - 1] == filters[i];
      assert filters[0].param != k;
      assert !HasParam(head, k);
      ParamValueSkip(head, rest, k);
    }
  }

  /**
   * The request of a list page always starts with `page` and `limit`, and
   * carries each filter exactly when the user filled it in.
   */
  lemma PageQueryParams(page: int, limit: int, filters: seq<Filter>, i: int)
    requires DistinctParams(filters) && 0 <= i < |filters|
    ensures var q := PageQuery(page, limit, filters);
      && q[0] == ("page", IntToString(page)) && q[1] == ("limit", IntToString(limit))
      && (HasParam(q, filters[i].param) <==> Truthy(filters[i].value))
      && (Truthy(filters[i].value) ==> ParamValue(q, filters[i].param) == Some(ToString(filters[i].value)))
  {
    var head := [("page", IntToString(page)), ("limit", IntToString(limit))];
    var rest := SentFilters(filters);
    var k := filters[i].param;
    SentFiltersExactly(filters, i);
    HasParamConcat(head, rest, k);
    assert !HasParam(head, k);
    ParamValueSkip(head, rest, k);
  }

  /** With every filter empty the request holds `page` and `limit` only. */
  lemma {:induction false} EmptyFiltersAreOmitted(page: int, limit: int, filters: seq<Filter>)
    requires forall i :: 0 <= i < |filters| ==> !Truthy(filters[i].value)
    ensures PageQuery(page, limit, filters) == [("page", IntToString(page)), ("limit", IntToString(limit))]
    decreases |filters|
  {
    if filters != [] {
      EmptyFiltersAreOmitted(page, limit, filters[1..]);
    }
  }

  // ---------------------------------------------------------------- paged list state

  /**
   * The state of a paged list screen: the rows on show, the loading flag, the
   * page position, the totals the server reported and the bound search values.
   */
  class ListController<T> {
    var items: seq<T>
    var loading: bool
    var currentPage: int
    var pageSize: int
    var totalRecords: int
    var totalPages: int
    var filters: seq<Filter>
    /** Whether a failed load empties the list and its totals (every screen but breeding). */
    const clearOnFailure: bool

    ghost predicate Valid()
      reads this
    {
      currentPage >= 1 && pageSize >= 1 && totalRecords >= 0 && totalPages >= 0
    }

    constructor (pageSize: int, clearOnFailure: bool, filters: seq<Filter>)
      requires pageSize >= 1
      ensures Valid()
      ensures this.pageSize == pageSize && this.clearOnFailure == clearOnFailure && this.filters == filters
      ensures items == [] && !loading && currentPage == 1 && totalRecords == 0 && totalPages == 0
    {
      this.pageSize := pageSize;
      this.clearOnFailure := clearOnFailure;
      this.filters := filters;
      items := [];
      loading := false;
      currentPage := 1;
      totalRecords := 0;
      totalPages := 0;
    }

    /** The search box or select at position `i` is bound to `v`. */
    method SetFilter(i: int, v: Value)
      requires 0 <= i < |filters|
      modifies this`filters
      ensures filters == old(filters)[i := Filter(old(filters)[i].param, v)]
    {
      filters := filters[i := Filter(filters[i].param, v)];
    }

    /** `loadX()`: raises the loading flag and returns the query of the request. */
    method Load() returns (q: Query)
      requires Valid()
      modifies this`loading
      ensures Valid() && loading
      ensures q == PageQuery(currentPage, pageSize, filters)
    {
      loading := true;
      q := PageQuery(currentPage, pageSize, filters);
    }

    /** The request succeeded with the rows of the page and the total row count. */
    method Loaded(data: seq<T>, total: nat)
      requires Valid()
      modifies this`items, this`totalRecords, this`totalPages, this`loading
      ensures Valid() && !loading
      ensures items == data && totalRecords == total && totalPages == CeilDiv(total, pageSize)
    {
      items := data;
      totalRecords := total;
      totalPages := CeilDiv(total, pageSize);
      loading := false;
    }

    /**
     * The success callback of a screen that flattens each row with `f`: when
     * `f` throws on some row nothing is assigned, so the list, the totals and
     * the loading flag stay as they were.
     */
    method LoadedMapped<A>(data: seq<A>, total: nat, f: A -> Option<T>)
      requires Valid()
      modifies this`items, this`totalRecords, this`totalPages, this`loading
      ensures Valid()
      ensures MapOrThrow(data, f).Some? ==>
        items == MapOrThrow(data, f).value && totalRecords == total
        && totalPages == CeilDiv(total, pageSize) && !loading
      ensures MapOrThrow(data, f).None? ==>
        items == old(items) && totalRecords == old(totalRecords)
        && totalPages == old(totalPages) && loading == old(loading)
    {
      var rows := MapOrThrow(data, f);
      if rows.Some? {
        Loaded(rows.value, total);
      }
    }

    /** The request failed. */
    method LoadFailed()
      requires Valid()
      modifies this`items, this`totalRecords, this`totalPages, this`loading
      ensures Valid() && !loading
      ensures clearOnFailure ==> items == [] && totalRecords == 0 && totalPages == 0
      ensures !clearOnFailure ==>
        items == old(items) && totalRecords == old(totalRecords) && totalPages == old(totalPages)
    {
      loading := false;
      if clearOnFailure {
        items := [];
        totalRecords := 0;
        totalPages := 0;
      }
    }

    /** `searchX()`: back to the first page, then reload. */
    method Search() returns (q: Query)
      requires Valid()
      modifies this`currentPage, this`loading
      ensures Valid() && loading && currentPage == 1
      ensures q == PageQuery(1, pageSize, filters)
    {
      currentPage := 1;
      q := Load();
    }

    /** `changePageSize()`: the selected size, back to the first page, then reload. */
    method ChangePageSize(size: int) returns (q: Query)
      requires Valid() && size >= 1
      modifies this`pageSize, this`currentPage, this`loading
      ensures Valid() && loading && pageSize == size && currentPage == 1
      ensures q == PageQuery(1, size, filters)
    {
      pageSize := size;
      currentPage := 1;
      q := Load();
    }

    /** `goToPage(page)`: moves and reloads only to an existing page. */
    method GoToPage(page: int) returns (q: Option<Query>)
      requires Valid()
      modifies this`currentPage, this`loading
      ensures Valid()
      ensures 1 <= page <= totalPages ==>
        currentPage == page && loading && q == Some(PageQuery(page, pageSize, filters))
      ensures !(1 <= page <= totalPages) ==>
        currentPage == old(currentPage) && loading == old(loading) && q == None
    {
      if 1 <= page <= totalPages {
        currentPage := page;
        var query := Load();
        q := Some(query);
      } else {
        q := None;
      }
    }

    /** `getPageNumbers()`: the page buttons, pushed one by one from the window's first page to its last. */
    method PageNumbers() returns (pages: seq<int>)
      ensures pages == PageWindow(currentPage, totalPages)
    {
      var start := Max(1, currentPage - WindowSize / 2);
      var end := Min(totalPages, start + WindowSize - 1);
      if end - start + 1 < WindowSize {
        start := Max(1, end - WindowSize + 1);
      }
      pages := [];
      var i := start;
      while i <= end
        invariant start <= i <= Max(start, end + 1)
        invariant pages == Span(start, i - 1)
      {
        pages := pages + [i];
        i := i + 1;
      }
    }
  }

  // ---------------------------------------------------------------- unpaged list state

  /** The whole list of a reference screen (colours, clinics, vets, …), loaded at once. */
  class Collection<T> {
    var items: seq<T>
    var loading: bool

    constructor ()
      ensures items == [] && !loading
    {
      items := [];
      loading := false;
    }

    /** `loadData()` starts a request. */
    method Load()
      modifies this`loading
      ensures loading
    {
      loading := true;
    }

    method Loaded(data: seq<T>)
      modifies this
      ensures items == data && !loading
    {
      items := data;
      loading := false;
    }

    /** A failed load empties the list. */
    method LoadFailed()
      modifies this
      ensures items == [] && !loading
    {
      items := [];
      loading := false;
    }
  }

  // ---------------------------------------------------------------- the add/edit form

  /**
   * The form of a screen: `resetForm()` puts back the blank form, `editX(r)`
   * fills it from the record `r` (the screen's own copy rule), and the
   * template's bindings replace it while the user types.
   */
  class FormState<R, F> {
    const blank: F
    const fromRecord: R -> F
    var form: F

    constructor (blank: F, fromRecord: R -> F)
      ensures this.blank == blank && this.fromRecord == fromRecord && form == blank
    {
      this.blank := blank;
      this.fromRecord := fromRecord;
      form := blank;
    }

    method Reset()
      modifies this`form
      ensures form == blank
    {
      form := blank;
    }

    method Edit(r: R)
      modifies this`form
      ensures form == fromRecord(r)
    {
      form := fromRecord(r);
    }

    method Bind(f: F)
      modifies this`form
      ensures form == f
    {
      form := f;
    }
  }
}
