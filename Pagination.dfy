/**
 * Page-number pagination as the list view uses it: the page size read from
 * `?page_size=` (default 20, at most 100), the page number read from
 * `?page=`, the upstream window (offset, limit) derived from the page, and
 * the paginated envelope `{count, next, previous, results}`.
 */
module Pagination {
  import opened Wrappers
  import opened Json
  import opened Ids

  /** Page size used when none (or an unusable one) is requested. */
  const DefaultPageSize: int := 20

  /** Largest page size a client may request. */
  const MaxPageSize: int := 100

  /** Lifetime, in seconds, of page and detail entries (15 minutes). */
  const CacheTtl: int := 60 * 15

  /** Lifetime, in seconds, of the total-count entry (24 hours). */
  const CountTtl: int := 60 * 60 * 24

  /**
   * The page size of a request: `?page_size=` read as a strictly positive
   * integer and capped at the maximum; absent, unparsable, zero or negative
   * values fall back to the default.
   */
  function PageSize(req: Option<string>): (size: int)
    ensures 1 <= size <= MaxPageSize
    ensures req.None? ==> size == DefaultPageSize
    ensures req.Some? && (ParseInt(req.value).None? || ParseInt(req.value).value <= 0) ==> size == DefaultPageSize
  {
    if req.None? then DefaultPageSize
    else
      match ParseInt(req.value)
      case Some(n) => if n <= 0 then DefaultPageSize else if n > MaxPageSize then MaxPageSize else n
      case None => DefaultPageSize
  }

  /** A requested size inside the bounds is used as is; larger ones are capped. */
  lemma PageSizeHonoursRequest(text: string)
    requires ParseInt(text).Some? && ParseInt(text).value >= 1
    ensures ParseInt(text).value <= MaxPageSize ==> PageSize(Some(text)) == ParseInt(text).value
    ensures ParseInt(text).value > MaxPageSize ==> PageSize(Some(text)) == MaxPageSize
  {
  }

  /** Number of pages of `count` items (an empty catalogue still has one, empty, page). */
  function NumPages(count: nat, size: int): (n: int)
    requires size >= 1
    ensures n >= 1
    ensures (n - 1) * size < (if count == 0 then 1 else count) <= n * size
  {
    var hits := if count == 0 then 1 else count;
    var n := (hits + size - 1) / size;
    assert n * size <= hits + size - 1 < n * size + size;
    n
  }

  /**
   * The page a request designates: `?page=` absent or empty means 1, `last`
   * means the last page; anything else must be an integer between 1 and the
   * number of pages, otherwise the page is invalid.
   */
  function RequestedPage(req: Option<string>, numPages: int): (r: Option<int>)
    requires numPages >= 1
    ensures r.Some? ==> 1 <= r.value <= numPages
    ensures req.None? || req == Some("") ==> r == Some(1)
    ensures req == Some("last") ==> r == Some(numPages)
    ensures req.Some? && req.value != "" && req.value != "last" ==>
      r == (if ParseInt(req.value).Some? && 1 <= ParseInt(req.value).value <= numPages
            then Some(ParseInt(req.value).value) else None)
  {
    var text := if req.None? then "" else req.value;
    if text == "" then Some(1)
    else if text == "last" then Some(numPages)
    else
      match ParseInt(text)
      case Some(p) => if 1 <= p <= numPages then Some(p) else None
      case None => None
  }

  /** The paginator's state after a page was selected: item count, page number and page size. */
  datatype PageState = PageState(count: nat, number: int, size: int)

  predicate ValidState(s: PageState)
  {
    s.size >= 1 && 1 <= s.number <= NumPages(s.count, s.size)
  }

  /** One-based index of the page's first item (0 for an empty catalogue). */
  function StartIndex(s: PageState): int
  {
    if s.count == 0 then 0 else (s.number - 1) * s.size + 1
  }

  function Max(a: int, b: int): int
  {
    if a < b then b else a
  }

  /**
   * The upstream window of a page: `offset = max(0, start_index - 1)` and
   * `limit = max(1, page_size)`, with the page size the request selected.
   */
  function Window(s: PageState): (w: (int, int))
    requires ValidState(s)
    ensures w.0 >= 0 && w.1 >= 1
    ensures w.1 == s.size
    ensures s.count > 0 ==> w.0 == (s.number - 1) * s.size && w.0 < s.count
    ensures s.count == 0 ==> w.0 == 0
  {
    (Max(0, StartIndex(s) - 1), Max(1, s.size))
  }

  /**
   * The window as the list view computes it: the limit is read from the
   * paginator's class-level `page_size`, which stays the default whatever
   * size the request selected.
   */
  function WindowAsWritten(s: PageState): (w: (int, int))
    ensures w.1 == DefaultPageSize
    ensures ValidState(s) && s.count > 0 ==> w.0 == (s.number - 1) * s.size
  {
    (Max(0, StartIndex(s) - 1), Max(1, DefaultPageSize))
  }

  /** `next`: designates the following page, null on the last page. */
  function NextLink(s: PageState): Json
    requires s.size >= 1
  {
    if s.number < NumPages(s.count, s.size) then JInt(s.number + 1) else JNull
  }

  /** `previous`: designates the preceding page, null on the first page. */
  function PreviousLink(s: PageState): Json
  {
    if s.number > 1 then JInt(s.number - 1) else JNull
  }

  /** The paginated envelope `{count, next, previous, results}`. */
  function Envelope(s: PageState, results: seq<Json>): (j: Json)
    requires s.size >= 1
    ensures Truthy(j)
    ensures j.JObj? && "results" in j.fields && j.fields["results"] == JList(results)
    ensures "count" in j.fields && j.fields["count"] == JInt(s.count)
  {
    var fields := map[
      "count" := JInt(s.count),
      "next" := NextLink(s),
      "previous" := PreviousLink(s),
      "results" := JList(results)
    ];
    assert "count" in fields;
    JObj(fields)
  }

  /**
   * `get_paginated_response`: needs the page state that only selecting a page
   * sets up; without it the attribute lookup fails (`None` here).
   */
  function PaginatedResponse(page: Option<PageState>, results: seq<Json>): (r: Option<Json>)
    requires page.Some? ==> page.value.size >= 1
    ensures r.Some? <==> page.Some?
    ensures r.Some? ==>
      (&& Truthy(r.value) && r.value.JObj?
       && "results" in r.value.fields && r.value.fields["results"] == JList(results)
       && "count" in r.value.fields && r.value.fields["count"] == JInt(page.value.count))
  {
    match page
    case Some(s) => Some(Envelope(s, results))
    case None => None
  }

  /** `{count: 0, next: null, previous: null, results: []}`. */
  function EmptyEnvelope(): Json
  {
    JObj(map["count" := JInt(0), "next" := JNull, "previous" := JNull, "results" := JList([])])
  }

  /** The empty envelope is what paginating an empty catalogue yields, whatever the page size. */
  lemma EmptyEnvelopeIsFirstPageOfNothing(size: int)
    requires size >= 1
    ensures ValidState(PageState(0, 1, size))
    ensures PaginatedResponse(Some(PageState(0, 1, size)), []) == Some(EmptyEnvelope())
  {
    assert NumPages(0, size) == 1;
  }

  lemma MulCancel(x: int, y: int, k: int)
    requires k >= 1 && x * k == y * k
    ensures x == y
  {
    assert (x - y) * k == 0;
  }

  /**
   * For a non-empty catalogue the window determines the page: two valid
   * pages with the same (offset, limit) are the same page of the same size.
   */
  lemma WindowIdentifiesPage(a: PageState, b: PageState)
    requires ValidState(a) && ValidState(b) && a.count == b.count && a.count > 0
    requires Window(a) == Window(b)
    ensures a == b
  {
    MulCancel(a.number - 1, b.number - 1, a.size);
  }

  /** Page 2 of size 50 asks upstream for 20 items at offset 50: items 71 to 100 are never fetched. */
  lemma AsWrittenLimitIgnoresPageSize()
    ensures ValidState(PageState(1000, 2, 50))
    ensures WindowAsWritten(PageState(1000, 2, 50)) == (50, 20)
    ensures Window(PageState(1000, 2, 50)) == (50, 50)
  {
    assert NumPages(1000, 50) == 20;
  }

  /**
   * As written, page 6 of size 10 and page 2 of size 50 share one window,
   * hence one cache entry, although their envelopes differ.
   */
  lemma AsWrittenWindowsCollide()
    ensures ValidState(PageState(1000, 6, 10)) && ValidState(PageState(1000, 2, 50))
    ensures WindowAsWritten(PageState(1000, 6, 10)) == WindowAsWritten(PageState(1000, 2, 50))
    ensures Envelope(PageState(1000, 6, 10), []) != Envelope(PageState(1000, 2, 50), [])
  {
    assert NumPages(1000, 10) == 100;
    assert NumPages(1000, 50) == 20;
    assert Envelope(PageState(1000, 6, 10), []).fields["next"] == JInt(7);
    assert Envelope(PageState(1000, 2, 50), []).fields["next"] == JInt(3);
  }
}
