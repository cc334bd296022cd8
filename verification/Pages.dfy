/** src/shared/utils/pagination.util.ts, and what its pages do to a list. */
module Pages {
  import opened Domain

  const DEFAULT_LIMIT := 20
  const MAX_LIMIT := 100

  datatype Window = Window(skip: nat, take: nat, page: nat, limit: nat)

  datatype Meta = Meta(page: nat, limit: nat, total: nat, totalPages: nat)

  function Max(a: int, b: int): int {
    if a < b then b else a
  }

  /** The page and limit a client gets who asks for these: page 1 and 20 rows unless stated, a page
      below 1 read as 1, a limit outside 1 to 100 as the nearer end. */
  ghost predicate Asked(page: Option<int>, limit: Option<int>, p: nat, l: nat) {
    && p == (if page.Some? && page.value >= 1 then page.value else 1)
    && l == (if limit.None? then 20 else if limit.value < 1 then 1 else if limit.value > 100 then 100 else limit.value)
  }

  function GetPaginationParams(page: Option<int>, limit: Option<int>): (w: Window)
    ensures Asked(page, limit, w.page, w.limit)
    ensures 1 <= w.limit <= MAX_LIMIT && 1 <= w.page
    ensures w.take == w.limit && w.skip == (w.page - 1) * w.limit
  {
    var p := Max(1, if page.Some? then page.value else 1);
    var l := Min(MAX_LIMIT, Max(1, if limit.Some? then limit.value else DEFAULT_LIMIT));
    Window(SkipOf(p, l), l, p, l)
  }

  function SkipOf(page: int, limit: int): (skip: nat)
    requires page >= 1 && limit >= 1
    ensures skip == (page - 1) * limit
  {
    (page - 1) * limit
  }

  /** `Math.ceil(total / limit)`. */
  function PageCount(total: nat, limit: nat): nat
    requires limit > 0
  {
    (total + limit - 1) / limit
  }

  function BuildPaginationMeta(total: nat, page: nat, limit: nat): Meta
    requires limit > 0
  {
    Meta(page, limit, total, PageCount(total, limit))
  }

  /** What a query with this skip and take returns. */
  function Slice<T>(rows: seq<T>, skip: nat, take: nat): seq<T> {
    var from := Min(skip, |rows|);
    rows[from..Min(from + take, |rows|)]
  }

  function PageAt<T>(rows: seq<T>, page: nat, limit: nat): seq<T>
    requires page >= 1 && limit >= 1
  {
    Slice(rows, SkipOf(page, limit), limit)
  }

  /** These are the rows of page p, l to a page: rows (p - 1) * l and on, as far as they go. */
  ghost predicate IsPage<T>(shown: seq<T>, rows: seq<T>, p: nat, l: nat) {
    && |shown| == (if |rows| <= (p - 1) * l then 0 else if |rows| < (p - 1) * l + l then |rows| - (p - 1) * l else l)
    && forall i :: 0 <= i < |shown| ==> 0 <= (p - 1) * l + i < |rows| && shown[i] == rows[(p - 1) * l + i]
  }

  /** The page counts a client is told. */
  ghost predicate IsMeta(m: Meta, total: nat, p: nat, l: nat) {
    m.page == p && m.limit == l && m.total == total && total <= m.totalPages * l < total + l
  }

  /** The window of a request selects the page asked for. */
  lemma WindowIsPage<T>(rows: seq<T>, page: Option<int>, limit: Option<int>)
    ensures
      var w := GetPaginationParams(page, limit);
      && IsPage(Slice(rows, w.skip, w.take), rows, w.page, w.limit)
      && IsMeta(BuildPaginationMeta(|rows|, w.page, w.limit), |rows|, w.page, w.limit)
  {
    var w := GetPaginationParams(page, limit);
    PageCountBounds(|rows|, w.limit);
    assert w.skip == (w.page - 1) * w.limit;
  }

  /** Pages 1 to n, one after the other. */
  function PagesUpTo<T>(rows: seq<T>, limit: nat, n: nat): seq<T>
    requires limit >= 1
  {
    if n == 0 then [] else PagesUpTo(rows, limit, n - 1) + PageAt(rows, n, limit)
  }

  lemma {:induction false} PrefixOfPages<T>(rows: seq<T>, limit: nat, n: nat)
    requires limit >= 1
    ensures PagesUpTo(rows, limit, n) == rows[..Min(n * limit, |rows|)]
  {
    if n == 0 {
    } else {
      PrefixOfPages(rows, limit, n - 1);
      assert n * limit == (n - 1) * limit + limit;
    }
  }

  lemma PageCountBounds(total: nat, limit: nat)
    requires limit > 0
    ensures total <= PageCount(total, limit) * limit < total + limit
  {
    var n := PageCount(total, limit);
    assert (total + limit - 1) == n * limit + (total + limit - 1) % limit;
  }

  lemma Grows(a: nat, b: nat, k: nat)
    requires a <= b
    ensures a * k <= b * k
  {
  }

  lemma LaterPagesEmpty<T>(rows: seq<T>, limit: nat, page: nat)
    requires limit >= 1 && page > PageCount(|rows|, limit)
    ensures PageAt(rows, page, limit) == []
  {
    PageCountBounds(|rows|, limit);
    Grows(PageCount(|rows|, limit), page - 1, limit);
  }

  lemma StopsShort(total: nat, limit: nat, m: nat)
    requires limit >= 1 && m < PageCount(total, limit)
    ensures m * limit < total
  {
    var n := PageCount(total, limit);
    PageCountBounds(total, limit);
    Grows(m, n - 1, limit);
    assert n * limit == (n - 1) * limit + limit;
  }

  lemma FewerPagesMiss<T>(rows: seq<T>, limit: nat, m: nat)
    requires limit >= 1 && m < PageCount(|rows|, limit)
    ensures |PagesUpTo(rows, limit, m)| < |rows|
  {
    StopsShort(|rows|, limit, m);
    PrefixOfPages(rows, limit, m);
  }

  lemma AllPages<T>(rows: seq<T>, limit: nat)
    requires limit >= 1
    ensures PagesUpTo(rows, limit, PageCount(|rows|, limit)) == rows
  {
    PageCountBounds(|rows|, limit);
    PrefixOfPages(rows, limit, PageCount(|rows|, limit));
  }

  /** Pages 1 to `totalPages` give the list exactly, every later page is empty, and no smaller
      number of pages would do; whatever page and limit the client asked for. */
  lemma PagesPartition<T>(rows: seq<T>, page: Option<int>, limit: Option<int>)
    ensures
      var w := GetPaginationParams(page, limit);
      var n := BuildPaginationMeta(|rows|, w.page, w.limit).totalPages;
      && PagesUpTo(rows, w.limit, n) == rows
      && (forall p: nat :: p > n ==> PageAt(rows, p, w.limit) == [])
      && (forall m: nat :: m < n ==> |PagesUpTo(rows, w.limit, m)| < |rows|)
  {
    var l := GetPaginationParams(page, limit).limit;
    AllPages(rows, l);
    forall p: nat | p > PageCount(|rows|, l) ensures PageAt(rows, p, l) == [] {
      LaterPagesEmpty(rows, l, p);
    }
    forall m: nat | m < PageCount(|rows|, l) ensures |PagesUpTo(rows, l, m)| < |rows| {
      FewerPagesMiss(rows, l, m);
    }
  }

  // ---- Chat: newest first, each page reversed ----

  function Reverse<T>(xs: seq<T>): (r: seq<T>)
    ensures |r| == |xs|
  {
    if xs == [] then [] else [xs[|xs| - 1]] + Reverse(xs[..|xs| - 1])
  }

  lemma {:induction false} ReverseAppend<T>(a: seq<T>, b: seq<T>)
    ensures Reverse(a + b) == Reverse(b) + Reverse(a)
  {
    if b == [] {
      assert a + b == a;
    } else {
      assert (a + b)[..|a + b| - 1] == a + b[..|b| - 1];
      ReverseAppend(a, b[..|b| - 1]);
    }
  }

  lemma {:induction false} ReverseAt<T>(xs: seq<T>, k: nat)
    requires k < |xs|
    ensures Reverse(xs)[k] == xs[|xs| - 1 - k]
  {
    if k == 0 {
    } else {
      ReverseAt(xs[..|xs| - 1], k - 1);
    }
  }

  /** The reversed pages, from page n down to page 1. */
  function ReversedPages<T>(rows: seq<T>, limit: nat, n: nat): seq<T>
    requires limit >= 1
  {
    if n == 0 then [] else Reverse(PageAt(rows, n, limit)) + ReversedPages(rows, limit, n - 1)
  }

  lemma {:induction false} ReversedPagesReverse<T>(rows: seq<T>, limit: nat, n: nat)
    requires limit >= 1
    ensures ReversedPages(rows, limit, n) == Reverse(PagesUpTo(rows, limit, n))
  {
    if n == 0 {
    } else {
      ReversedPagesReverse(rows, limit, n - 1);
      ReverseAppend(PagesUpTo(rows, limit, n - 1), PageAt(rows, n, limit));
    }
  }
}
