/**
 * The client-side table controls shared by the property listing page and the
 * agents page: the column-sort toggle, the page window cut out of the sorted
 * rows with `Array.prototype.slice`, the page count, Previous/Next clamping
 * and the "Showing x to y of n" line.
 */
module TableControls {
  import opened Wrappers
  import opened Ordering

  datatype Direction = Asc | Desc

  /** Which column the table is sorted by, if any, and in which direction. */
  datatype Sorting<C> = Sorting(column: Option<C>, direction: Direction)

  /** What a table sorts by: the chosen column's value, or one key shared by every row when no column is chosen. */
  function ColumnKey<T, C>(column: Option<C>, value: (T, C) -> Key): T -> Key {
    match column
    case None => (t: T) => Num(0)
    case Some(c) => (t: T) => value(t, c)
  }

  /**
   * The memoised sorted rows of a table: a permutation of its input, in the
   * chosen column's order, and unchanged when no column is chosen.
   */
  function SortRows<T, C>(items: seq<T>, sorting: Sorting<C>, value: (T, C) -> Key): (r: seq<T>)
    ensures multiset(r) == multiset(items)
    ensures sorting.column.None? ==> r == items
    ensures sorting.column.Some? && sorting.direction == Asc ==>
      forall i, j :: 0 <= i < j < |r| ==> !Less(value(r[j], sorting.column.value), value(r[i], sorting.column.value))
    ensures sorting.column.Some? && sorting.direction == Desc ==>
      forall i, j :: 0 <= i < j < |r| ==> !Less(value(r[i], sorting.column.value), value(r[j], sorting.column.value))
  {
    var key := ColumnKey(sorting.column, value);
    var descending := sorting.direction == Desc;
    SortByCorrect(items, key, descending);
    if sorting.column.None? then
      SortByEqualKeys(items, key, descending, Num(0));
      SortBy(items, key, descending)
    else
      SortBy(items, key, descending)
  }

  /** `sortData(column)`: the ascending column flips to descending, any other click sorts ascending. */
  function SortData<C(==)>(s: Sorting<C>, column: C): (r: Sorting<C>)
    ensures r.column == Some(column)
    ensures r.direction == Desc <==> s.column == Some(column) && s.direction == Asc
  {
    Sorting(Some(column), if s.column == Some(column) && s.direction == Asc then Desc else Asc)
  }

  /** Clicking the same column again always reverses the direction just chosen. */
  lemma SecondClickReverses<C>(s: Sorting<C>, column: C)
    ensures SortData(SortData(s, column), column).direction != SortData(s, column).direction
    ensures SortData(SortData(s, column), column).column == Some(column)
  {
  }

  /** `Math.ceil(n / k)`: the fewest pages of `k` rows that hold `n` rows. */
  function CeilDiv(n: nat, k: nat): (r: nat)
    requires k >= 1
    ensures r * k >= n
    ensures r == 0 || (r - 1) * k < n
    decreases n
  {
    if n == 0 then 0 else 1 + CeilDiv(if n <= k then 0 else n - k, k)
  }

  /** `startIndex = (currentPage - 1) * itemsPerPage` */
  function StartIndex(page: int, perPage: nat): int {
    (page - 1) * perPage
  }

  /** ECMAScript's reading of a `slice` bound: negative counts from the end, then clamped to `[0, n]`. */
  function RelativeIndex(i: int, n: nat): (r: nat)
    ensures r <= n
  {
    if i < 0 then (if n + i < 0 then 0 else n + i) else if i > n then n else i
  }

  /** `s.slice(from, to)` */
  function Slice<T>(s: seq<T>, from: int, to: int): seq<T> {
    var b := RelativeIndex(from, |s|);
    var e := RelativeIndex(to, |s|);
    if b < e then s[b..e] else []
  }

  /** The rows shown on `page`: `sorted.slice(startIndex, startIndex + itemsPerPage)`. */
  function PageItems<T>(s: seq<T>, page: int, perPage: nat): seq<T> {
    var start := StartIndex(page, perPage);
    Slice(s, start, start + perPage)
  }

  function Min(a: int, b: int): int { if a <= b then a else b }

  /** A page never holds more than `perPage` rows, whatever the current page is. */
  lemma PageItemsAtMost<T>(s: seq<T>, page: int, perPage: nat)
    ensures |PageItems(s, page, perPage)| <= perPage
  {
  }

  /** From page 1 on, a page is the run of rows from its start index, cut at the end of the list. */
  lemma PageItemsWindow<T>(s: seq<T>, page: int, perPage: nat)
    requires page >= 1
    ensures StartIndex(page, perPage) >= 0
    ensures StartIndex(page, perPage) >= |s| ==> PageItems(s, page, perPage) == []
    ensures StartIndex(page, perPage) < |s| ==>
      PageItems(s, page, perPage) == s[StartIndex(page, perPage)..Min(StartIndex(page, perPage) + perPage, |s|)]
  {
    assert (page - 1) * perPage >= 0 by {
      MulNonNegative(page - 1, perPage);
    }
  }

  lemma MulNonNegative(a: int, b: int)
    requires a >= 0 && b >= 0
    ensures a * b >= 0
  {
  }

  lemma MulMonotone(a: int, b: int, k: nat)
    requires a <= b
    ensures a * k <= b * k
  {
    assert b * k - a * k == (b - a) * k;
    MulNonNegative(b - a, k);
  }

  /** `totalPages = Math.ceil(rows / itemsPerPage)` */
  function TotalPages(n: nat, perPage: nat): nat
    requires perPage >= 1
  {
    CeilDiv(n, perPage)
  }

  /** Every row appears, at its own offset, on one of pages `1 .. totalPages`. */
  lemma {:induction false} EveryRowOnAPage<T>(s: seq<T>, perPage: nat, i: nat)
    requires perPage >= 1 && i < |s|
    ensures 1 <= i / perPage + 1 <= TotalPages(|s|, perPage)
    ensures |PageItems(s, i / perPage + 1, perPage)| > i % perPage
    ensures PageItems(s, i / perPage + 1, perPage)[i % perPage] == s[i]
  {
    var p := i / perPage + 1;
    var start := StartIndex(p, perPage);
    assert start == (i / perPage) * perPage;
    assert i == (i / perPage) * perPage + i % perPage;
    assert 0 <= i % perPage < perPage;
    var t := TotalPages(|s|, perPage);
    if p > t {
      MulMonotone(t, p - 1, perPage);
      assert false;
    }
    PageItemsWindow(s, p, perPage);
  }

  /** Previous: `Math.max(1, prev - 1)` */
  function Previous(page: int): (r: int)
    ensures r >= 1
    ensures r <= page || page < 1
  {
    if page - 1 < 1 then 1 else page - 1
  }

  /** Next: `Math.min(totalPages, prev + 1)`; with no rows (0 pages) it yields page 0. */
  function Next(page: int, totalPages: int): (r: int)
    ensures r <= totalPages
    ensures r <= page + 1
  {
    if totalPages < page + 1 then totalPages else page + 1
  }

  /** The pagination buttons: Previous, Next, and the numbered button of page `1 .. totalPages`. */
  datatype Click = PreviousPage | NextPage | NumberedPage(page: int)

  function Navigate(page: int, clicks: seq<Click>, totalPages: nat): int
    decreases |clicks|
  {
    if |clicks| == 0 then page
    else
      var next := match clicks[0]
        case PreviousPage => Previous(page)
        case NextPage => Next(page, totalPages)
        case NumberedPage(p) => p;
      Navigate(next, clicks[1..], totalPages)
  }

  /** Only numbered buttons `1 .. totalPages` are rendered. */
  ghost predicate RenderedButtons(clicks: seq<Click>, totalPages: nat) {
    forall i :: 0 <= i < |clicks| && clicks[i].NumberedPage? ==> 1 <= clicks[i].page <= totalPages
  }

  /** From a page in `[1, totalPages]`, any sequence of clicks keeps the page in that range. */
  lemma {:induction false} NavigateStaysInRange(page: int, clicks: seq<Click>, totalPages: nat)
    requires 1 <= page <= totalPages
    requires RenderedButtons(clicks, totalPages)
    ensures 1 <= Navigate(page, clicks, totalPages) <= totalPages
    decreases |clicks|
  {
    if |clicks| > 0 {
      var next := match clicks[0]
        case PreviousPage => Previous(page)
        case NextPage => Next(page, totalPages)
        case NumberedPage(p) => p;
      assert RenderedButtons(clicks[1..], totalPages) by {
        forall i | 0 <= i < |clicks[1..]| && clicks[1..][i].NumberedPage?
          ensures 1 <= clicks[1..][i].page <= totalPages
        {
          assert clicks[1..][i] == clicks[i + 1];
        }
      }
      NavigateStaysInRange(next, clicks[1..], totalPages);
    }
  }

  /** The upper bound of "Showing {startIndex + 1} to {min(startIndex + itemsPerPage, n)}". */
  function ShowingTo(page: int, perPage: nat, n: nat): int {
    Min(StartIndex(page, perPage) + perPage, n)
  }

  /** On an existing page the "Showing" line counts exactly the rows displayed. */
  lemma ShowingMatchesPage<T>(s: seq<T>, page: int, perPage: nat)
    requires perPage >= 1 && 1 <= page <= TotalPages(|s|, perPage)
    ensures ShowingTo(page, perPage, |s|) - StartIndex(page, perPage) == |PageItems(s, page, perPage)|
    ensures |PageItems(s, page, perPage)| >= 1
  {
    var t := TotalPages(|s|, perPage);
    MulMonotone(page - 1, t - 1, perPage);
    PageItemsWindow(s, page, perPage);
  }
}
