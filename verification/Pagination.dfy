/** OFFSET/LIMIT pages of a filtered, ordered query, and the page numbers reported with them. */
module Pagination {
  import opened Basics

  datatype PageInfo = PageInfo(page: int, pageSize: int, total: nat, totalPages: int, hasNext: bool, hasPrev: bool)

  /** WHERE. */
  function Where<T>(rows: seq<T>, p: T -> bool): seq<T> {
    if rows == [] then []
    else (if p(rows[0]) then [rows[0]] else []) + Where(rows[1..], p)
  }

  /** OFFSET (page - 1) * size LIMIT size. */
  function Page<T>(rows: seq<T>, page: int, size: int): seq<T>
    requires page >= 1 && size >= 1
  {
    rows[Min((page - 1) * size, |rows|)..Min((page - 1) * size + size, |rows|)]
  }

  /** math.ceil(total / page_size). */
  function TotalPages(total: nat, size: int): int {
    if size > 0 then (total + size - 1) / size else 0
  }

  /** The pagination block of `paginated_response`. */
  function Describe(page: int, size: int, total: nat): PageInfo {
    var pages := TotalPages(total, size);
    PageInfo(page, size, total, pages, page < pages, page > 1)
  }

  /** One list call: the page, and the count of everything that matches. */
  function List<T>(rows: seq<T>, p: T -> bool, page: int, size: int): (seq<T>, nat)
    requires page >= 1 && size >= 1
  {
    (Page(Where(rows, p), page, size), |Where(rows, p)|)
  }

  /** The pages a client receives that starts at `page` and asks on while there is a next one. */
  function Follow<T>(rows: seq<T>, p: T -> bool, page: int, size: int): seq<seq<T>>
    requires page >= 1 && size >= 1
    decreases TotalPages(|Where(rows, p)|, size) - page
  {
    var (items, total) := List(rows, p, page, size);
    [items] + (if Describe(page, size, total).hasNext then Follow(rows, p, page + 1, size) else [])
  }

  function Concat<T>(pages: seq<seq<T>>): seq<T> {
    if pages == [] then [] else pages[0] + Concat(pages[1..])
  }

  // --- Page counts -----------------------------------------------------------------------

  lemma CeilSpans(total: nat, size: int)
    requires size > 0
    ensures (TotalPages(total, size) - 1) * size < total <= TotalPages(total, size) * size
    ensures total > 0 ==> TotalPages(total, size) >= 1
  {
    var q := (total + size - 1) / size;
    assert q * size <= total + size - 1 < q * size + size;
    assert (q - 1) * size == q * size - size;
    if total > 0 {
      CancelFactor(size, 0, q);
    }
  }

  lemma Scale(size: int, a: int, b: int)
    requires size > 0 && a <= b
    ensures a * size <= b * size
  {
    assert (b - a) * size == b * size - a * size;
  }

  /** The server's has_next, from the page count, and the client's, from the product, agree. */
  lemma HasNextAgrees(page: int, size: int, total: nat)
    requires size > 0
    ensures Describe(page, size, total).hasNext <==> page * size < total
  {
    var pages := TotalPages(total, size);
    CeilSpans(total, size);
    if page < pages {
      Scale(size, page, pages - 1);
    } else {
      Scale(size, pages, page);
    }
  }

  // --- Pages partition the list ------------------------------------------------------------

  /** One page takes up to `size` of what is left, and leaves the rest to the next. */
  lemma PageTakes<T>(found: seq<T>, page: int, size: int)
    requires page >= 1 && size >= 1
    ensures var items := Page(found, page, size);
            && found[Min((page - 1) * size, |found|)..] == items + found[Min(page * size, |found|)..]
            && |items| <= size && (page * size < |found| ==> |items| == size)
  {
    var lo, hi := (page - 1) * size, page * size;
    assert hi == lo + size;
  }

  ghost predicate PagesFull<T>(pages: seq<seq<T>>, size: int) {
    forall k :: 0 <= k < |pages| ==> |pages[k]| <= size && (k < |pages| - 1 ==> |pages[k]| == size)
  }

  lemma OneMorePage<T>(items: seq<T>, rest: seq<seq<T>>, size: int)
    requires |items| <= size && PagesFull(rest, size) && (rest != [] ==> |items| == size)
    ensures PagesFull([items] + rest, size) && Concat([items] + rest) == items + Concat(rest)
  {
    var pages := [items] + rest;
    assert pages[1..] == rest;
    forall k | 0 <= k < |pages| ensures |pages[k]| <= size && (k < |pages| - 1 ==> |pages[k]| == size) {
      assert k > 0 ==> pages[k] == rest[k - 1];
    }
  }

  lemma {:induction false} FollowFrom<T>(rows: seq<T>, p: T -> bool, page: int, size: int)
    requires page >= 1 && size >= 1
    ensures var found, pages := Where(rows, p), Follow(rows, p, page, size);
            && Concat(pages) == found[Min((page - 1) * size, |found|)..]
            && |pages| == (if TotalPages(|found|, size) > page then TotalPages(|found|, size) - page + 1 else 1)
            && PagesFull(pages, size)
    decreases TotalPages(|Where(rows, p)|, size) - page
  {
    var found := Where(rows, p);
    var items := Page(found, page, size);
    HasNextAgrees(page, size, |found|);
    PageTakes(found, page, size);
    if Describe(page, size, |found|).hasNext {
      FollowFrom(rows, p, page + 1, size);
      OneMorePage(items, Follow(rows, p, page + 1, size), size);
    } else {
      OneMorePage(items, [], size);
      assert items + [] == items;
    }
  }

  lemma NoRowsNoPages(size: int)
    requires size >= 1
    ensures TotalPages(0, size) == 0
  {
    var q := TotalPages(0, size);
    assert q * size <= size - 1 < q * size + size;
    if q >= 1 {
      Scale(size, 1, q);
      assert false;
    } else if q <= -1 {
      Scale(size, q, -1);
      assert false;
    }
  }

  /** The block sent with each page has its number, the size, the number of rows and of pages, 0
      when there is no row, and says that only the first has none before it and only the last none
      after. */
  ghost predicate BlocksTell<T>(pages: seq<seq<T>>, size: int, total: nat) {
    forall n :: 1 <= n <= |pages| ==>
      Describe(n, size, total) == PageInfo(n, size, total, if total == 0 then 0 else |pages|, n < |pages|, n > 1)
  }

  /** Starting at page 1 and following has_next ends after total_pages pages, one when nothing
      matches; the pages joined are the matching rows, each once and in order; all but the last are
      full; and their blocks tell which page it is, and of how many. */
  lemma PagesPartition<T>(rows: seq<T>, p: T -> bool, size: int)
    requires size >= 1
    ensures var found, pages := Where(rows, p), Follow(rows, p, 1, size);
            && Concat(pages) == found
            && |pages| == (if found == [] then 1 else TotalPages(|found|, size))
            && PagesFull(pages, size) && BlocksTell(pages, size, |found|)
  {
    var found := Where(rows, p);
    FollowFrom(rows, p, 1, size);
    CeilSpans(|found|, size);
    NoRowsNoPages(size);
    assert Min((1 - 1) * size, |found|) == 0 && found[0..] == found;
  }

  /** Where the size is not positive no pages are counted, and none comes next. */
  lemma NoSizeNoPages(page: int, size: int, total: nat)
    requires size <= 0 && page >= 1
    ensures Describe(page, size, total) == PageInfo(page, size, total, 0, false, page > 1)
  {
  }

  /** Filtering keeps the order of the rows. */
  lemma {:induction false} WhereJoins<T>(rows: seq<T>, more: seq<T>, p: T -> bool)
    ensures Where(rows + more, p) == Where(rows, p) + Where(more, p)
  {
    if rows == [] {
      assert rows + more == more;
    } else {
      var all, first := rows + more, if p(rows[0]) then [rows[0]] else [];
      WhereJoins(rows[1..], more, p);
      assert all[0] == rows[0] && all[1..] == rows[1..] + more;
      assert Where(all, p) == first + Where(all[1..], p);
      assert first + (Where(rows[1..], p) + Where(more, p)) == (first + Where(rows[1..], p)) + Where(more, p);
    }
  }

  /** Filtering keeps each matching row as often as it occurs, and no other. */
  lemma {:induction false} WhereCounts<T>(rows: seq<T>, p: T -> bool, x: T)
    ensures multiset(Where(rows, p))[x] == if p(x) then multiset(rows)[x] else 0
  {
    if rows != [] {
      WhereCounts(rows[1..], p, x);
      assert rows == [rows[0]] + rows[1..];
    }
  }
}
