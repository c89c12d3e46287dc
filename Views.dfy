/**
 * The two operations of the catalogue view set, `list` and `retrieve`, as
 * imperative methods over the shared cache and the upstream API, each proved
 * equal to a specification function (`ListSpec`, `RetrieveSpec`) that
 * describes the whole call: the response, the cache afterwards, the cache
 * writes and the upstream requests, in order.
 */
module Views {
  import opened Wrappers
  import opened Json
  import opened Ids
  import opened Keys
  import opened Detail
  import opened Pagination
  import opened Cache
  import opened Upstream

  /** An HTTP response: status code and JSON body. */
  datatype Response = Response(status: int, body: Json)

  /** Everything one view call does. */
  datatype Run = Run(resp: Response, cache: map<string, Json>, writes: seq<Write>, calls: seq<Request>)

  function ErrorBody(message: string): Json
  {
    JObj(map["error" := JStr(message)])
  }

  function DetailBody(message: string): Json
  {
    JObj(map["detail" := JStr(message)])
  }

  /** The framework's own 500 for an exception no handler of the view catches. */
  const ServerError: Response := Response(500, JNull)

  /** The framework's answer to a page number that does not exist. */
  const InvalidPage: Response := Response(404, DetailBody("Invalid page."))

  const CountFailedMessage: string := "Could not fetch total item count from external API."

  const ListFailedMessage: string := "Could not fetch list data from external API: "

  const InternalErrorMessage: string := "An internal error occurred: "

  function DetailFailedMessage(id: int): string
  {
    "Could not fetch detail data for " + Show(id) + " from external API: "
  }

  // ---------------------------------------------------------------------
  // list: resolving the total count

  datatype CountStage =
    | Counted(total: Json, cache: map<string, Json>, writes: seq<Write>, calls: seq<Request>)
    | Stopped(run: Run)

  /**
   * The total count from the cache (any stored value other than None is a
   * hit), or from one `limit=1` request whose `count` (default 0) is cached
   * for a day. A failed request ends the call with 503; a payload that is
   * not a dictionary makes `.get` raise outside any handler.
   */
  function ResolveCount(c0: map<string, Json>, answer: Request -> Fetch): (r: CountStage)
    ensures Read(c0, CountKey) != JNull ==> r == Counted(Read(c0, CountKey), c0, [], [])
    ensures Read(c0, CountKey) == JNull && r.Counted? ==>
      && r.calls == [CountQuery] && r.writes == [Write(CountKey, r.total, CountTtl)]
      && r.cache == c0[CountKey := r.total]
    ensures r.Stopped? ==>
      && Read(c0, CountKey) == JNull && r.run.calls == [CountQuery]
      && r.run.cache == c0 && r.run.writes == []
      && (r.run.resp.status == 503 <==> !answer(CountQuery).Ok?)
    ensures Read(c0, CountKey) == JNull ==>
      (r.Stopped? <==> !(answer(CountQuery).Ok? && answer(CountQuery).payload.JObj?))
    ensures Read(c0, CountKey) == JNull && r.Counted? ==>
      r.total == Get(answer(CountQuery).payload.fields, "count", JInt(0))
  {
    var cached := Read(c0, CountKey);
    if cached != JNull then Counted(cached, c0, [], [])
    else
      match answer(CountQuery)
      case Ok(payload) =>
        if payload.JObj? then
          var total := Get(payload.fields, "count", JInt(0));
          Counted(total, c0[CountKey := total], [Write(CountKey, total, CountTtl)], [CountQuery])
        else
          Stopped(Run(ServerError, c0, [], [CountQuery]))
      case _ => Stopped(Run(Response(503, ErrorBody(CountFailedMessage)), c0, [], [CountQuery]))
  }

  /**
   * The count as a number, where `total_count == 0` and `[None] * total_count`
   * accept it: integers, and booleans as 0 and 1. Anything else raises.
   */
  function CountNumber(total: Json): (r: Option<int>)
    ensures r.Some? <==> total.JInt? || total.JBool?
    ensures total.JInt? ==> r == Some(total.i)
    ensures r == Some(0) <==> (total.JInt? && !Truthy(total)) || total == JBool(false)
  {
    match total
    case JInt(n) => Some(n)
    case JBool(b) => Some(if b then 1 else 0)
    case _ => None
  }

  // ---------------------------------------------------------------------
  // list: the loop over the upstream references

  /** The state of the loop: cache, assembled items, writes and requests so far, and whether it raised. */
  datatype Acc = Acc(cache: map<string, Json>, items: seq<Json>, writes: seq<Write>, calls: seq<Request>, aborted: bool)

  /** `entry['url']` as a string; anything else raises before the id is parsed. */
  function EntryUrl(entry: Json): (r: Option<string>)
    ensures r.Some? ==> entry.JObj?
  {
    if entry.JObj? && "url" in entry.fields && entry.fields["url"].JStr? then Some(entry.fields["url"].s) else None
  }

  /** What one entry contributes: the cache after it, the items it appends, its writes and requests, and whether it raised. */
  datatype Step = Step(cache: map<string, Json>, added: seq<Json>, writes: seq<Write>, calls: seq<Request>, raised: bool)

  /** A reference whose `url` yields an item id: exactly these contribute an item. */
  predicate Parseable(entry: Json)
  {
    EntryUrl(entry).Some? && IdFromUrl(EntryUrl(entry).value).Some?
  }

  function RefId(entry: Json): int
    requires Parseable(entry)
  {
    IdFromUrl(EntryUrl(entry).value).value
  }

  /**
   * One pass of the loop body: skip an entry whose id does not parse, serve
   * a cached record, or fetch, normalise, append and cache it; a failed
   * fetch or normalisation appends a placeholder and caches nothing.
   */
  function EntryStep(c: map<string, Json>, answer: Request -> Fetch, entry: Json): (r: Step)
    ensures r.raised <==> EntryUrl(entry).None?
    ensures |r.added| == (if Parseable(entry) then 1 else 0)
    ensures |r.writes| <= 1 && |r.calls| <= 1
    ensures |r.writes| == 1 ==>
      (Parseable(entry) && r.writes[0].key == DetailKey(RefId(entry))
       && r.writes[0].ttl == CacheTtl && r.cache == c[r.writes[0].key := r.writes[0].value]
       && r.added == [r.writes[0].value] && ItemOf(r.writes[0].value).Some?)
    ensures r.writes == [] ==> r.cache == c
    ensures |r.calls| == 1 <==> Parseable(entry) && !Truthy(Read(c, DetailKey(RefId(entry))))
    ensures |r.calls| == 1 ==> r.calls[0] == DetailAt(EntryUrl(entry).value)
    ensures |r.writes| <= |r.calls|
    ensures |r.writes| == 1 <==>
      Parseable(entry) && !Truthy(Read(c, DetailKey(RefId(entry)))) && FetchedItem(answer(r.calls[0])).Some?
    ensures |r.writes| == 1 ==> r.writes[0].value == ItemJson(FetchedItem(answer(r.calls[0])).value)
  {
    match EntryUrl(entry)
    case None => Step(c, [], [], [], true)
    case Some(url) =>
      match IdFromUrl(url)
      case None => Step(c, [], [], [], false)
      case Some(id) =>
        var key := DetailKey(id);
        var cached := Read(c, key);
        if Truthy(cached) then Step(c, [cached], [], [], false)
        else
          var fetched := answer(DetailAt(url));
          match FetchedItem(fetched)
          case Some(item) =>
            Step(c[key := ItemJson(item)], [ItemJson(item)], [Write(key, ItemJson(item), CacheTtl)], [DetailAt(url)], false)
          case None =>
            Step(c, [Placeholder(id, entry.fields, FailureReason(fetched))], [], [DetailAt(url)], false)
  }

  /** The normalised record of a detail fetch, if the fetch succeeded and its payload normalises. */
  function FetchedItem(fetched: Fetch): Option<Item>
  {
    if fetched.Ok? then Normalize(fetched.payload) else None
  }

  /** Why a detail fetch yielded no record: the request failed, or its payload did not normalise. */
  function FailureReason(fetched: Fetch): string
  {
    if fetched.Ok? then DetailsProcessingFailed else DetailsUnavailable
  }

  /** The loop state after one more entry; nothing changes once the loop has raised. */
  function Visit(acc: Acc, answer: Request -> Fetch, entry: Json): (r: Acc)
    ensures acc.aborted ==> r == acc
    ensures r.aborted <==> acc.aborted || EntryUrl(entry).None?
    ensures acc.items <= r.items && acc.writes <= r.writes && acc.calls <= r.calls
    ensures |r.items| <= |acc.items| + 1 && |r.calls| <= |acc.calls| + 1
    ensures |r.writes| - |acc.writes| <= |r.calls| - |acc.calls|
  {
    if acc.aborted then acc
    else
      var step := EntryStep(acc.cache, answer, entry);
      Acc(step.cache, acc.items + step.added, acc.writes + step.writes, acc.calls + step.calls, step.raised)
  }

  /** The loop over the references, in order, starting from cache `c`. */
  function Assemble(c: map<string, Json>, answer: Request -> Fetch, refs: seq<Json>): (r: Acc)
    ensures |r.items| <= |refs| && |r.writes| <= |r.calls| <= |refs|
  {
    if refs == [] then Acc(c, [], [], [], false)
    else Visit(Assemble(c, answer, refs[..|refs| - 1]), answer, refs[|refs| - 1])
  }

  /** Once the loop has raised, later entries change nothing. */
  lemma {:induction false} AssembleStopsAtAbort(c: map<string, Json>, answer: Request -> Fetch, refs: seq<Json>, n: nat)
    requires n <= |refs|
    requires Assemble(c, answer, refs[..n]).aborted
    ensures Assemble(c, answer, refs) == Assemble(c, answer, refs[..n])
  {
    if n < |refs| {
      assert refs[..|refs| - 1][..n] == refs[..n];
      AssembleStopsAtAbort(c, answer, refs[..|refs| - 1], n);
    } else {
      assert refs[..n] == refs;
    }
  }

  /**
   * `list_data.get('results', [])` as the sequence the loop walks. An empty
   * string or dictionary yields nothing; a non-empty one yields strings, on
   * which `entry['url']` raises, as does iterating a number, a boolean or
   * None, and calling `.get` on a payload that is not a dictionary.
   */
  function ReferenceList(payload: Json): (r: Option<seq<Json>>)
    ensures r.Some? ==> payload.JObj?
    ensures payload.JObj? && "results" !in payload.fields ==> r == Some([])
    ensures payload.JObj? && "results" in payload.fields && payload.fields["results"].JList? ==>
      r == Some(payload.fields["results"].items)
  {
    if !payload.JObj? then None
    else
      match Get(payload.fields, "results", JList([]))
      case JList(refs) => Some(refs)
      case JStr(s) => if s == "" then Some([]) else None
      case JObj(m) => if m == map[] then Some([]) else None
      case _ => None
  }

  // ---------------------------------------------------------------------
  // list: the whole call

  /** The cache key of a page: built from its upstream window alone. */
  function PageKeyOf(s: PageState): string
    requires ValidState(s)
  {
    PageKey(Window(s).0, Window(s).1)
  }

  /**
   * A valid page: serve the assembled page from the cache under its
   * (offset, limit) key, or fetch the references, assemble, cache and return.
   */
  function ServePage(c1: map<string, Json>, answer: Request -> Fetch, s: PageState): (r: Run)
    requires ValidState(s)
    ensures Truthy(Read(c1, PageKeyOf(s))) ==> r == Run(Response(200, Read(c1, PageKeyOf(s))), c1, [], [])
    ensures !Truthy(Read(c1, PageKeyOf(s))) ==> |r.calls| >= 1 && r.calls[0] == ListQuery(Window(s).0, Window(s).1)
  {
    var key := PageKeyOf(s);
    var cached := Read(c1, key);
    if Truthy(cached) then Run(Response(200, cached), c1, [], [])
    else FetchPage(c1, answer, s, key, ListQuery(Window(s).0, Window(s).1))
  }

  /** A page missing from the cache: fetch its references, assemble the records, cache the envelope. */
  function FetchPage(c1: map<string, Json>, answer: Request -> Fetch, s: PageState, key: string, query: Request): (r: Run)
    requires s.size >= 1
    ensures |r.calls| >= 1 && r.calls[0] == query
    ensures r.resp.status == 200 <==>
      answer(query).Ok? && ReferenceList(answer(query).payload).Some?
      && !Assemble(c1, answer, ReferenceList(answer(query).payload).value).aborted
    ensures r.resp.status == 200 ==>
      && Truthy(r.resp.body) && Read(r.cache, key) == r.resp.body
      && |r.writes| >= 1 && r.writes[|r.writes| - 1] == Write(key, r.resp.body, CacheTtl)
  {
    match answer(query)
    case HttpErr(code) => Run(Response(code, ErrorBody(ListFailedMessage)), c1, [], [query])
    case NetErr => Run(Response(503, ErrorBody(ListFailedMessage)), c1, [], [query])
    case Ok(payload) =>
      match ReferenceList(payload)
      case None => Run(Response(500, ErrorBody(InternalErrorMessage)), c1, [], [query])
      case Some(refs) =>
        var acc := Assemble(c1, answer, refs);
        if acc.aborted then
          Run(Response(500, ErrorBody(InternalErrorMessage)), acc.cache, acc.writes, [query] + acc.calls)
        else
          var body := Envelope(s, acc.items);
          Run(Response(200, body), acc.cache[key := body], acc.writes + [Write(key, body, CacheTtl)], [query] + acc.calls)
  }

  /** A later stage of a call, after earlier writes `w` and requests `k`. */
  function After(w: seq<Write>, k: seq<Request>, run: Run): Run
  {
    run.(writes := w + run.writes, calls := k + run.calls)
  }

  /**
   * The page the paginator selects for a count `n` other than 0: the
   * catalogue it paginates has `max(0, n)` items; `None` when the request
   * names no existing page.
   */
  function SelectPage(n: int, pageReq: Option<string>, sizeReq: Option<string>): (s: Option<PageState>)
    ensures s.Some? ==> ValidState(s.value) && s.value.count == (if n < 0 then 0 else n) && s.value.size == PageSize(sizeReq)
    ensures var number := RequestedPage(pageReq, NumPages(if n < 0 then 0 else n, PageSize(sizeReq)));
      && (s.Some? <==> number.Some?)
      && (s.Some? ==> s.value.number == number.value)
  {
    var count: nat := if n < 0 then 0 else n;
    var size := PageSize(sizeReq);
    match RequestedPage(pageReq, NumPages(count, size))
    case None => None
    case Some(number) => Some(PageState(count, number, size))
  }

  /** `GET /api/pokemon/?page=&page_size=` from cache `c0` against upstream `answer`. */
  function ListSpec(c0: map<string, Json>, answer: Request -> Fetch, pageReq: Option<string>, sizeReq: Option<string>): (r: Run)
    ensures (|r.calls| >= 1 && r.calls[0] == CountQuery) <==> Read(c0, CountKey) == JNull
  {
    match ResolveCount(c0, answer)
    case Stopped(run) => run
    case Counted(total, c1, w1, k1) => After(w1, k1, ListFromCount(c1, answer, total, pageReq, sizeReq))
  }

  /** The rest of the call once the count `total` is known, from cache `c1`. */
  function ListFromCount(c1: map<string, Json>, answer: Request -> Fetch, total: Json, pageReq: Option<string>, sizeReq: Option<string>): (r: Run)
    ensures r.calls != [] || r.writes != [] || r.cache != c1 ==>
      && CountNumber(total).Some? && CountNumber(total).value != 0
      && SelectPage(CountNumber(total).value, pageReq, sizeReq).Some?
    ensures r.calls == [] || r.calls[0].ListQuery?
  {
    match CountNumber(total)
    case None => Run(ServerError, c1, [], [])
    case Some(n) =>
      if n == 0 then Run(Response(200, EmptyEnvelope()), c1, [], [])
      else
        match SelectPage(n, pageReq, sizeReq)
        case None => Run(InvalidPage, c1, [], [])
        case Some(s) => ServePage(c1, answer, s)
  }

  /**
   * The empty-catalogue branch as written: the paginated response is asked
   * for before any page was selected, so there is no page state and the
   * attribute lookup raises outside any handler.
   */
  function ZeroCountAsWritten(): (r: Response)
    ensures r.status == 500
  {
    match PaginatedResponse(None, [])
    case Some(body) => Response(200, body)
    case None => ServerError
  }

  /** As written an empty catalogue yields a 500; the model serves the empty envelope instead. */
  lemma ZeroCountAsWrittenFails(c0: map<string, Json>, answer: Request -> Fetch, pageReq: Option<string>, sizeReq: Option<string>)
    requires Read(c0, CountKey) == JInt(0)
    ensures ZeroCountAsWritten().status == 500
    ensures ListSpec(c0, answer, pageReq, sizeReq).resp == Response(200, EmptyEnvelope())
  {
  }

  /** The body of the list view's loop for one reference. */
  method ResolveEntry(cache: Store, api: Api, entry: Json) returns (added: seq<Json>, raised: bool)
    modifies cache, api
    ensures var step := EntryStep(old(cache.entries), old(api.answer), entry);
      && added == step.added && raised == step.raised && cache.entries == step.cache
      && cache.log == old(cache.log) + step.writes && api.calls == old(api.calls) + step.calls
    ensures api.answer == old(api.answer)
  {
    ghost var c := cache.entries;
    var url := EntryUrl(entry);
    if url.None? {
      assert EntryStep(c, api.answer, entry) == Step(c, [], [], [], true);
      return [], true;
    }
    var id := IdFromUrl(url.value);
    if id.None? {
      assert EntryStep(c, api.answer, entry) == Step(c, [], [], [], false);
      return [], false;
    }
    added := LookUpEntry(cache, api, entry, url.value, id.value);
    raised := false;
  }

  /** The loop body for a reference whose id parsed: serve the cached record, or fetch it. */
  method LookUpEntry(cache: Store, api: Api, entry: Json, url: string, id: int) returns (added: seq<Json>)
    requires EntryUrl(entry) == Some(url) && IdFromUrl(url) == Some(id)
    modifies cache, api
    ensures var step := EntryStep(old(cache.entries), old(api.answer), entry);
      && added == step.added && !step.raised && cache.entries == step.cache
      && cache.log == old(cache.log) + step.writes && api.calls == old(api.calls) + step.calls
    ensures api.answer == old(api.answer)
  {
    ghost var c := cache.entries;
    var cached := cache.Get(DetailKey(id));
    if Truthy(cached) {
      assert EntryStep(c, api.answer, entry) == Step(c, [cached], [], [], false);
      return [cached];
    }
    added := FetchEntry(cache, api, entry, url, id);
  }

  /** The loop body for a reference whose record is not cached: fetch, normalise, and cache it or put a placeholder in its place. */
  method FetchEntry(cache: Store, api: Api, entry: Json, url: string, id: int) returns (added: seq<Json>)
    requires EntryUrl(entry) == Some(url) && IdFromUrl(url) == Some(id)
    requires !Truthy(Read(cache.entries, DetailKey(id)))
    modifies cache, api
    ensures var step := EntryStep(old(cache.entries), old(api.answer), entry);
      && added == step.added && !step.raised && cache.entries == step.cache
      && cache.log == old(cache.log) + step.writes && api.calls == old(api.calls) + step.calls
    ensures api.answer == old(api.answer)
  {
    ghost var c := cache.entries;
    var key := DetailKey(id);
    var fetched := api.Get(DetailAt(url));
    if fetched.Ok? {
      var item := Normalize(fetched.payload);
      if item.Some? {
        var record := ItemJson(item.value);
        assert EntryStep(c, api.answer, entry)
          == Step(c[key := record], [record], [Write(key, record, CacheTtl)], [DetailAt(url)], false);
        added := [record];
        cache.Set(key, record, CacheTtl);
      } else {
        added := [Placeholder(id, entry.fields, DetailsProcessingFailed)];
        assert EntryStep(c, api.answer, entry) == Step(c, added, [], [DetailAt(url)], false);
      }
    } else {
      added := [Placeholder(id, entry.fields, DetailsUnavailable)];
      assert EntryStep(c, api.answer, entry) == Step(c, added, [], [DetailAt(url)], false);
    }
  }

  lemma AppendAssoc<T>(a: seq<T>, b: seq<T>, c: seq<T>)
    ensures a + b + c == a + (b + c)
  {
  }

  /** The loop state after one more reference is the state before it, visited once more. */
  lemma AssembleNext(c: map<string, Json>, answer: Request -> Fetch, refs: seq<Json>, i: nat)
    requires i < |refs|
    ensures Assemble(c, answer, refs[..i + 1]) == Visit(Assemble(c, answer, refs[..i]), answer, refs[i])
  {
    assert refs[..i + 1][..i] == refs[..i];
  }

  /** The loop of the list view over the references of one page. */
  method AssembleItems(cache: Store, api: Api, refs: seq<Json>) returns (items: seq<Json>, aborted: bool)
    modifies cache, api
    ensures var acc := Assemble(old(cache.entries), old(api.answer), refs);
      && items == acc.items && aborted == acc.aborted && cache.entries == acc.cache
      && cache.log == old(cache.log) + acc.writes && api.calls == old(api.calls) + acc.calls
    ensures api.answer == old(api.answer)
  {
    ghost var c1, answer := cache.entries, api.answer;
    ghost var log1, calls1 := cache.log, api.calls;
    ghost var acc := Acc(c1, [], [], [], false);
    assert refs[..0] == [];
    items := [];
    for i := 0 to |refs|
      invariant acc == Assemble(c1, answer, refs[..i])
      invariant !acc.aborted && cache.entries == acc.cache && items == acc.items
      invariant cache.log == log1 + acc.writes && api.calls == calls1 + acc.calls
      invariant api.answer == answer
    {
      AssembleNext(c1, answer, refs, i);
      ghost var step := EntryStep(acc.cache, answer, refs[i]);
      var added, raised := ResolveEntry(cache, api, refs[i]);
      AppendAssoc(log1, acc.writes, step.writes);
      AppendAssoc(calls1, acc.calls, step.calls);
      acc := Acc(step.cache, acc.items + step.added, acc.writes + step.writes, acc.calls + step.calls, step.raised);
      items := items + added;
      if raised {
        AssembleStopsAtAbort(c1, answer, refs, i + 1);
        return items, true;
      }
    }
    assert refs[..|refs|] == refs;
    aborted := false;
  }

  /** Steps 5 to 9 of the list view: a page missing from the cache. */
  method FetchValidPage(cache: Store, api: Api, s: PageState, key: string, offset: int, limit: int) returns (resp: Response)
    requires s.size >= 1
    modifies cache, api
    ensures var run := FetchPage(old(cache.entries), old(api.answer), s, key, ListQuery(offset, limit));
      && resp == run.resp && cache.entries == run.cache
      && cache.log == old(cache.log) + run.writes && api.calls == old(api.calls) + run.calls
    ensures api.answer == old(api.answer)
  {
    // 5. the references of the page
    var listed := api.Get(ListQuery(offset, limit));
    if listed.HttpErr? {
      return Response(listed.status, ErrorBody(ListFailedMessage));
    } else if listed.NetErr? {
      return Response(503, ErrorBody(ListFailedMessage));
    }
    var found := ReferenceList(listed.payload);
    if found.None? {
      return Response(500, ErrorBody(InternalErrorMessage));
    }

    // 6. one record per reference whose id parses
    ghost var log1, calls1 := cache.log, api.calls;
    ghost var acc := Assemble(cache.entries, api.answer, found.value);
    AppendAssoc(old(api.calls), [ListQuery(offset, limit)], acc.calls);
    var items, aborted := AssembleItems(cache, api, found.value);
    if aborted {
      return Response(500, ErrorBody(InternalErrorMessage));
    }

    // 7.-9. the envelope, cached under the page key, and returned
    var body := Envelope(s, items);
    AppendAssoc(old(cache.log), acc.writes, [Write(key, body, CacheTtl)]);
    cache.Set(key, body, CacheTtl);
    resp := Response(200, body);
  }

  /** Steps 4 to 9 of the list view, for a page the paginator accepted. */
  method ServeValidPage(cache: Store, api: Api, s: PageState) returns (resp: Response)
    requires ValidState(s)
    modifies cache, api
    ensures var run := ServePage(old(cache.entries), old(api.answer), s);
      && resp == run.resp && cache.entries == run.cache
      && cache.log == old(cache.log) + run.writes && api.calls == old(api.calls) + run.calls
    ensures api.answer == old(api.answer)
  {
    var window := Window(s);

    // 4. the assembled page from the cache
    var key := PageKeyOf(s);
    var cachedPage := cache.Get(key);
    if Truthy(cachedPage) {
      return Response(200, cachedPage);
    }
    resp := FetchValidPage(cache, api, s, key, window.0, window.1);
  }

  /** Step 1 of the list view: the total count, from the cache or from upstream. */
  method LoadCount(cache: Store, api: Api) returns (total: Json, stopped: Option<Response>)
    modifies cache, api
    ensures var stage := ResolveCount(old(cache.entries), old(api.answer));
      && (stopped.Some? <==> stage.Stopped?)
      && (stage.Stopped? ==>
            && stopped.value == stage.run.resp && cache.entries == stage.run.cache
            && cache.log == old(cache.log) + stage.run.writes && api.calls == old(api.calls) + stage.run.calls)
      && (stage.Counted? ==>
            && total == stage.total && cache.entries == stage.cache
            && cache.log == old(cache.log) + stage.writes && api.calls == old(api.calls) + stage.calls)
    ensures api.answer == old(api.answer)
  {
    total := cache.Get(CountKey);
    stopped := None;
    if total == JNull {
      var fetched := api.Get(CountQuery);
      if fetched.Ok? && fetched.payload.JObj? {
        total := Get(fetched.payload.fields, "count", JInt(0));
        cache.Set(CountKey, total, CountTtl);
      } else if fetched.Ok? {
        stopped := Some(ServerError);
      } else {
        stopped := Some(Response(503, ErrorBody(CountFailedMessage)));
      }
    }
  }

  method List(cache: Store, api: Api, pageReq: Option<string>, sizeReq: Option<string>) returns (resp: Response)
    modifies cache, api
    ensures var run := ListSpec(old(cache.entries), old(api.answer), pageReq, sizeReq);
      && resp == run.resp && cache.entries == run.cache
      && cache.log == old(cache.log) + run.writes && api.calls == old(api.calls) + run.calls
    ensures api.answer == old(api.answer)
  {
    // 1. the total count
    var total, stopped := LoadCount(cache, api);
    if stopped.Some? {
      return stopped.value;
    }

    // 2. an empty catalogue, or a count that is not a number
    var n := CountNumber(total);
    if n == Some(0) {
      return Response(200, EmptyEnvelope());
    }
    if n.None? {
      return ServerError;
    }

    // 3. the page the request selects
    var page := SelectPage(n.value, pageReq, sizeReq);
    if page.None? {
      return InvalidPage;
    }
    ghost var stage := ResolveCount(old(cache.entries), old(api.answer));
    ghost var run := ServePage(cache.entries, api.answer, page.value);
    AppendAssoc(old(cache.log), stage.writes, run.writes);
    AppendAssoc(old(api.calls), stage.calls, run.calls);
    resp := ServeValidPage(cache, api, page.value);
  }

  // ---------------------------------------------------------------------
  // retrieve

  /** `requests.Response.__bool__`: true only for a status below 400. */
  predicate ResponseTruthy(status: int)
  {
    status < 400
  }

  /** The handler of an upstream error response with status `code`. */
  function ForwardedError(id: int, code: int): (r: Response)
    ensures r.status == code
    ensures r.body == ErrorBody(DetailFailedMessage(id))
  {
    if ResponseTruthy(code) && code == 404 then
      Response(404, DetailBody("Pokémon with ID " + Show(id) + " not found in external API."))
    else
      Response(code, ErrorBody(DetailFailedMessage(id)))
  }

  /** `GET /api/pokemon/<pk>/` from cache `c0` against upstream `answer`. */
  function RetrieveSpec(c0: map<string, Json>, answer: Request -> Fetch, pk: Option<string>): (r: Run)
    ensures r.calls != [] ==>
      && pk.Some? && ParseInt(pk.value).Some?
      && !Truthy(Read(c0, DetailKey(ParseInt(pk.value).value)))
      && r.calls == [DetailOf(ParseInt(pk.value).value)]
    ensures r.writes != [] ==> r.resp.status == 200
  {
    match pk
    case None => Run(Response(400, DetailBody("Pokémon ID not provided.")), c0, [], [])
    case Some(text) =>
      match ParseInt(text)
      case None => Run(Response(400, DetailBody("Invalid Pokémon ID format: '" + text + "'.")), c0, [], [])
      case Some(id) =>
        var key := DetailKey(id);
        var cached := Read(c0, key);
        if Truthy(cached) then Run(Response(200, cached), c0, [], [])
        else
          var calls := [DetailOf(id)];
          match answer(DetailOf(id))
          case Ok(payload) =>
            (match Normalize(payload)
             case Some(item) =>
               Run(Response(200, ItemJson(item)), c0[key := ItemJson(item)], [Write(key, ItemJson(item), CacheTtl)], calls)
             case None => Run(Response(500, ErrorBody(InternalErrorMessage)), c0, [], calls))
          case HttpErr(code) => Run(ForwardedError(id, code), c0, [], calls)
          case NetErr => Run(Response(503, ErrorBody(DetailFailedMessage(id))), c0, [], calls)
  }

  method Retrieve(cache: Store, api: Api, pk: Option<string>) returns (resp: Response)
    modifies cache, api
    ensures var run := RetrieveSpec(old(cache.entries), old(api.answer), pk);
      && resp == run.resp && cache.entries == run.cache
      && cache.log == old(cache.log) + run.writes && api.calls == old(api.calls) + run.calls
    ensures api.answer == old(api.answer)
  {
    if pk.None? {
      return Response(400, DetailBody("Pokémon ID not provided."));
    }
    var id := ParseInt(pk.value);
    if id.None? {
      return Response(400, DetailBody("Invalid Pokémon ID format: '" + pk.value + "'."));
    }
    var key := DetailKey(id.value);
    var cached := cache.Get(key);
    if Truthy(cached) {
      return Response(200, cached);
    }
    var fetched := api.Get(DetailOf(id.value));
    match fetched
    case Ok(payload) =>
      var item := Normalize(payload);
      if item.None? {
        return Response(500, ErrorBody(InternalErrorMessage));
      }
      cache.Set(key, ItemJson(item.value), CacheTtl);
      resp := Response(200, ItemJson(item.value));
    case HttpErr(code) =>
      resp := ForwardedError(id.value, code);
    case NetErr =>
      resp := Response(503, ErrorBody(DetailFailedMessage(id.value)));
  }
}
