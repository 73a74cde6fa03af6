/** Paging (src/utils/pagination.js): pages partition the list they are cut from. */
module Pagination {
  import opened Options

  /** The query after parseInt: None is NaN. */
  datatype Query = Query(page: Option<int>, limit: Option<int>)

  /** The defaults a controller passes; None where it passes none. */
  datatype Defaults = Defaults(limit: Option<int>, maxLimit: Option<int>)

  datatype Paging = Paging(page: int, limit: int, skip: int)

  datatype Payload = Payload(total: int, page: int, limit: int, totalPages: int, count: int)

  /** The `||` of JavaScript: NaN, undefined and 0 give way to the default. */
  function Or(n: Option<int>, otherwise: int): int {
    if n.Some? && n.value != 0 then n.value else otherwise
  }

  function Max(a: int, b: int): int {
    if a >= b then a else b
  }

  function Min(a: int, b: int): int {
    if a <= b then a else b
  }

  function GetPagination(query: Query, defaults: Defaults): Paging {
    var defaultLimit := Or(defaults.limit, 10);
    var maxLimit := Or(defaults.maxLimit, 100);
    var page := Max(1, Or(query.page, 1));
    var limit := Min(maxLimit, Max(1, Or(query.limit, defaultLimit)));
    Paging(page, limit, (page - 1) * limit)
  }

  function Ceil(a: int, b: int): int
    requires b > 0
  {
    (a + b - 1) / b
  }

  function BuildPaginationPayload(total: int, page: int, limit: int, count: int): Payload
    requires limit > 0
  {
    Payload(total, page, limit, Ceil(total, limit), count)
  }

  /** What the database returns for skip and limit. */
  function Slice<T>(list: seq<T>, skip: int, limit: int): seq<T>
    requires skip >= 0 && limit >= 0
  {
    list[Min(skip, |list|)..Min(skip + limit, |list|)]
  }

  function PageOf<T>(list: seq<T>, page: int, limit: int): seq<T>
    requires page >= 1 && limit >= 1
  {
    SkipIsNonNegative(page, limit);
    Slice(list, (page - 1) * limit, limit)
  }

  lemma SkipIsNonNegative(page: int, limit: int)
    requires page >= 1 && limit >= 1
    ensures (page - 1) * limit >= 0
  {
  }

  /** Whatever is asked for, the page is at least 1, the limit is between 1 and the maximum exactly if the
      maximum is positive, a query within bounds is honoured, and the slice is the page that the payload
      names. */
  lemma EveryQueryIsAPage<T>(query: Query, defaults: Defaults, list: seq<T>)
    ensures var p, maxLimit := GetPagination(query, defaults), Or(defaults.maxLimit, 100);
            && p.page >= 1 && p.limit <= maxLimit && (1 <= p.limit <==> 1 <= maxLimit)
            && (query.limit.Some? && 1 <= query.limit.value <= maxLimit ==> p.limit == query.limit.value)
            && (query.page.Some? && 1 <= query.page.value ==> p.page == query.page.value)
            && (1 <= maxLimit ==> p.skip >= 0 && Slice(list, p.skip, p.limit) == PageOf(list, p.page, p.limit))
  {
    var p := GetPagination(query, defaults);
    if 1 <= p.limit { SkipIsNonNegative(p.page, p.limit); }
  }

  /** The first n pages, one after another. */
  function Pages<T>(list: seq<T>, n: nat, limit: int): seq<T>
    requires limit >= 1
  {
    if n == 0 then [] else Pages(list, n - 1, limit) + PageOf(list, n, limit)
  }

  lemma {:induction false} PagesAreAPrefix<T>(list: seq<T>, n: nat, limit: int)
    requires limit >= 1
    ensures n * limit >= 0 && Pages(list, n, limit) == list[..Min(n * limit, |list|)]
  {
    if n == 0 {
    } else {
      PagesAreAPrefix(list, n - 1, limit);
      assert n * limit == (n - 1) * limit + limit;
    }
  }

  lemma CeilCovers(total: int, limit: int)
    requires total >= 0 && limit >= 1
    ensures Ceil(total, limit) >= 0
    ensures Ceil(total, limit) * limit >= total
    ensures total == 0 ==> Ceil(total, limit) == 0
    ensures total > 0 ==> (Ceil(total, limit) - 1) * limit < total
  {
    var n, a := Ceil(total, limit), total + limit - 1;
    assert a == n * limit + a % limit;
    assert (n - 1) * limit == n * limit - limit;
  }

  lemma PageOrder(page: int, other: int, limit: int)
    requires limit >= 1 && page <= other
    ensures page * limit <= other * limit
  {
  }

  lemma {:induction false} PageSizes<T>(list: seq<T>, limit: int, page: int, n: int)
    requires limit >= 1 && page >= 1 && n >= 0
    requires n * limit >= |list| && (|list| > 0 ==> (n - 1) * limit < |list|) && (|list| == 0 ==> n == 0)
    ensures page <= n <==> |PageOf(list, page, limit)| > 0
    ensures page < n ==> |PageOf(list, page, limit)| == limit
  {
    SkipIsNonNegative(page, limit);
    assert page * limit == (page - 1) * limit + limit;
    if page < n {
      PageOrder(page, n - 1, limit);
    } else if page > n {
      PageOrder(n, page - 1, limit);
    }
  }

  /** Pages 1 to totalPages put together are the list: nothing is lost, repeated or reordered. None of
      them is empty, and every page beyond is. */
  lemma {:induction false} PagesPartition<T>(list: seq<T>, limit: int, page: int)
    requires limit >= 1 && page >= 1
    ensures var payload := BuildPaginationPayload(|list|, page, limit, |PageOf(list, page, limit)|);
            && payload.total == |list| && payload.page == page && payload.limit == limit
            && payload.totalPages >= 0
            && Pages(list, payload.totalPages, limit) == list
            && (page <= payload.totalPages <==> payload.count > 0)
            && (page < payload.totalPages ==> payload.count == limit)
  {
    var n := Ceil(|list|, limit);
    CeilCovers(|list|, limit);
    PagesAreAPrefix(list, n, limit);
    PageSizes(list, limit, page, n);
  }

  /** The i-th element is on exactly one page. */
  lemma OnOnePage<T>(list: seq<T>, limit: int, i: nat, page: int)
    requires limit >= 1 && i < |list| && page >= 1
    ensures ((page - 1) * limit <= i < (page - 1) * limit + |PageOf(list, page, limit)|) <==> page == i / limit + 1
    ensures page == i / limit + 1 ==>
              i % limit < |PageOf(list, page, limit)| && PageOf(list, page, limit)[i % limit] == list[i]
  {
    assert i == (i / limit) * limit + i % limit;
    if page - 1 < i / limit {
      PageOrder(page, i / limit, limit);
      assert page * limit == (page - 1) * limit + limit;
    } else if page - 1 > i / limit {
      PageOrder(i / limit + 1, page - 1, limit);
      assert (i / limit + 1) * limit == (i / limit) * limit + limit;
    }
  }

  /** What a query gets that is missing, unreadable or out of bounds: the first page; the default limit, 10 unless
      another is given; at least 1 and at most the maximum, 100 unless another is given. */
  lemma BadQueriesGetDefaults(query: Query, defaults: Defaults)
    ensures var p := GetPagination(query, defaults);
            var maxLimit :=
              if defaults.maxLimit.Some? && defaults.maxLimit.value != 0 then defaults.maxLimit.value else 100;
            var usual := if defaults.limit.Some? && defaults.limit.value != 0 then defaults.limit.value else 10;
            && (query.page.None? || query.page.value < 1 ==> p.page == 1)
            && (query.limit.None? || query.limit.value == 0 ==>
                 p.limit == if usual < 1 then Min(1, maxLimit) else Min(usual, maxLimit))
            && (query.limit.Some? && query.limit.value < 0 ==> p.limit == Min(1, maxLimit))
            && (query.limit.Some? && query.limit.value > maxLimit >= 1 ==> p.limit == maxLimit)
  {
  }
}
